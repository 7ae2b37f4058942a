# A verified model of the Memgraph HA controller

The controller keeps a StatefulSet of Memgraph instances in a MAIN / STRICT_SYNC / ASYNC replication
topology and sends clients to the current main through a TCP gateway. This project models its three
protocols and proves what they are for:

* **Failover and reconciliation.** No write committed by a client of the gateway is ever lost, across
  reconciliation passes, complete and half-failed failovers, preStop hooks, restarts of the controller
  and transactions still open on an earlier main (`LogSafety`); and it is shown exactly when discovery,
  which holds no lock, may store what it found (`Discovery`, `DiscoveryRuns`). The caches are true
  (`Coherence`, `NodeCache`), it is shown exactly which registrations keep the single-source rule
  (`SingleSourceRule`), and two error-free passes settle the topology whatever is cached (`Controller`).
* **The gateway's upstream switch.** In every interleaving of connection handlers with upstream
  changes, no byte goes to, or comes from, an address that is not the current upstream (`Gateway`,
  `GatewayServer`).
* **The rate limiter.** How much it admits at most (`RateLimiter`) and what it owes its clients
  (`BurstService`), exactly when its cleanup can be noticed
  (`CleanupTransparency`), and exactly when it loses count of open connections (`Admission`,
  `ConnectionCount`).

Beside them: parsing and judging `SHOW REPLICAS` rows (`ReplicaStatus`), and names, ordinals and the
choice of a replica for reads (`Naming`, `Selection`).

## How it is built

Each concurrent protocol is a step machine: a state, a `Step` datatype, `Enabled` and `Apply`. Runs are
sequences of states and steps, and the main theorems are about every run. Next to the machine stands a
class with the source's operations, in the source's order, with the source's branches. Its ghost
fields record the run so far and its `Valid()` says that this is a run of the machine, so whatever is
proved about runs holds for the code. In `Controller`, between any two commands and queries, and in
`GatewayServer`, between any two actions, a call to `Interfere` lets the other goroutines, clients and
pods take any number of steps. The ghost counters `faults` and `others` say how many commands and queries
have reported an error, and how many steps other goroutines have taken: what an operation achieves is
stated for the calls during which they stand still.

Some results are about what the controller can see. They quantify over every cluster that looks the same
to it, that is over all states with the same caches, indices and gateway, and any instances and open
transactions behind them that meet the invariants: a step is safe in all of them if and only if a
condition on the caches holds.

| file | models |
|---|---|
| `ReplicaStatus.dfy` | internal/controller/memgraph_client.go, `isHealthy` of internal/controller/controller_core.go |
| `NodeCache.dfy`, `TargetIndex.dfy` | internal/controller/memgraph_node.go and the target index of controller_core.go, for any caller |
| `Topology.dfy`, `LogSafety.dfy`, `Discovery.dfy`, `DiscoveryRuns.dfy`, `Coherence.dfy`, `SingleSourceRule.dfy` | the replication topology as a step machine, and theorems about its runs |
| `Controller.dfy` | internal/controller/controller_reconcile.go, queue_failover.go, memgraph_cluster.go, and the calls of memgraph_node.go and controller_core.go they make, as steps of that machine |
| `Gateway.dfy`, `GatewayServer.dfy` | internal/gateway/server.go and connection_tracker.go |
| `RateLimiter.dfy`, `CleanupTransparency.dfy`, `BurstService.dfy`, `Admission.dfy`, `ConnectionCount.dfy` | internal/gateway/rate_limiter.go and the admission path of server.go |
| `Naming.dfy`, `Selection.dfy` | internal/common/config.go, replica names and `selectBestReplica` |

## What is taken for granted

About Memgraph, as STUDY_NOTES.md:34-60 and 204-219 describe it: a main commits only when every
STRICT_SYNC replica confirms, and a replica confirms only while it is a replica holding the main's whole
log; a strict replica is reported "ready" only while that is so; logs survive restarts; a demoted
instance loses its registrations and its open client transactions, and a promoted one starts without
any.

About the surroundings: roles and registrations are changed only by this controller; clients begin
transactions only through the read/write gateway (`Gateway` proves that its sessions reach the current
upstream only), but what an instance has received it may commit at any later time, whatever has become
of the gateway and the target; one controller acts at a time, and `operationMu` keeps reconciliations
and failovers apart. Discovery does not take `operationMu`
(internal/controller/controller_reconcile.go:56-77): its write of the index may come at any moment, also
over a target that others have loaded and moved since (`Adopt` is always enabled); but its commands and
queries are taken not to overlap with an operation that has a target loaded.

About the start: the ConfigMap may be missing although the instances hold data. What is promised then is
the longer of the logs of the two eligible pods; every log is a prefix of what is promised.

Not taken for granted: that a command reported as failed had no effect. Every command may be `Lost`, that
is take effect although the controller sees an error. Log safety holds all the same. Cache coherence and
agreement of memory with the ConfigMap do not, and `CoherenceKept` and `AgreementKept` say exactly which
lost commands break them.

## Where the code differs from what is written about it

* The "health-check-failure" branch of `performFailoverCheck` logs that it proceeds with the failover and
  then returns nil whether or not the ping failed (internal/controller/queue_failover.go:168-178).
  `PerformFailoverCheck` follows the code: such an event never moves the target.
* design/failover.md:47 has the failover check `behind: 0`. The code tests the status only
  (internal/controller/queue_failover.go:273-297); `GateImpliesHealthy` says what that leaves out.
* The comments on discovery speak of a missing ConfigMap. The code runs discovery whenever the target
  cannot be read (internal/controller/controller_reconcile.go:57-62), and then takes two mains for a new
  cluster if both report no vertex and no edge, which they do whenever the counts are not sent as fields
  of their own (internal/controller/memgraph_client.go:561-583). `DiscoveryLosesWrites` is a run in which
  a committed write is lost that way, whether the index is stored or gone.
* Discovery stores its finding without a lock and without looking at what it overwrites. In
  `LateDiscoveryLosesWrites` a failover has come in between: a committed write is lost and the gateway
  leads to a pod that is not the target.
* `AdoptionKeepsLogIff` and `AdoptionSafeIff` say exactly when such a write is safe. The pod must be seen
  to be level: it is the loaded or stored target, or a cached list shows the eligible pods level, as it
  does after a successful initialisation. If another target is loaded, the gateway must be closed and the
  pod's own list must not have outlived its registrations. The theorems about whole runs need adoptions
  of this kind; `Tick` and `Operate` follow the code into the others and say where it was.
* The dual-main check skips a pod whose role cannot be read
  (internal/controller/controller_reconcile.go:297-301). `BlindRegistrationBreaksSingleSource` is a run in
  which a replica gets two sources. `RegistrationSafeIff` says which registrations are safe: the other
  eligible pod's role is cached, or it was demoted in this pass, or the list just read shows it ready.
* "The last one in a StatefulSet" (internal/controller/controller_core.go:494) is the highest name, which
  is the highest ordinal among any pods exactly up to ten pods (`HighestOrdinalIff`).
* Cleanup of idle rate-limit entries is invisible exactly when rps times the whole seconds in twice the
  window reaches the burst (`CleanupTransparentIff`), for calls whose two clock readings coincide; for
  others it can be noticed at every setting (`SlowCallsNoticeCleanup`).
* The limiter's connection count is meant to be the number of open connections. Allow releases the
  table's lock before it takes the entry's (internal/gateway/rate_limiter.go:65-68), and a cleanup in
  between makes the count too low: `CleanupInsideAllowLosesCount`, and `AlwaysExactIff` and
  `AlwaysExactIffNeverCatches` for exactly when.

## Model

| member | source | states |
|---|---|---|
| `LogSafety.StepKeeps` | internal/controller/queue_failover.go:199-352 | Every step of the protocol, acknowledged or lost, keeps the invariant behind log safety and only extends what is promised; discovery's write, enabled at any moment, has to be Safe. |
| `LogSafety.LogOnlyGrows` | internal/controller/queue_failover.go:199-352 | In every run what is promised, the target main's log or without a target the longer log of the eligible pods, is a prefix of what is promised at any later time, whichever pods are the targets. |
| `LogSafety.CommittedWritesSurvive` | internal/controller/queue_failover.go:199-352 | In every run a write a client commits, on the target or in a transaction left open on an earlier main, stays in the target's log at its position, and every instance's log is a prefix of the target's. |
| `LogSafety.GatewayLeadsToTarget` | internal/controller/queue_failover.go:308-347 | In every run the read/write gateway's upstream is empty or the target in memory. |
| `LogSafety.ClosedDuringFailover` | internal/controller/queue_failover.go:308-347 | From the moment a failover empties the upstream until it ends, the upstream stays empty, whatever preStop hooks do. |
| `LogSafety.PromotionsBehindClosedGateway` | internal/controller/queue_failover.go:308-334 | Every promotion and every later write of the target index happens inside such a closed window. |
| `Discovery.AdoptionKeepsLogIff` | internal/controller/controller_reconcile.go:56-77 | Storing a discovered pod leaves a target with every committed write, in all clusters that look the same to the controller, if and only if the pod is the loaded or stored target or a cached list shows the eligible pods level (the loaded target's list, if one is loaded). |
| `Discovery.AdoptionSafeIff` | internal/controller/controller_reconcile.go:56-77 | It keeps all that the theorems about runs rest on, in all such clusters, if and only if moreover, when another target is loaded and the write is acknowledged, the gateway is closed and the pod's own cached list is not one that may have outlived its registrations. |
| `DiscoveryRuns.DiscoveryLosesWrites` | internal/controller/controller_reconcile.go:56-77 | A run from two mains, with the index of pod-1 stored or gone, through a first discovery that demotes and registers pod-1 and a restart, in which a second discovery drops a committed write; only its last step is not Safe. |
| `DiscoveryRuns.LateDiscoveryLosesWrites` | internal/controller/controller_reconcile.go:56-77 | A run from a healthy cluster in which another goroutine loads the target and fails over between discovery's last query and its write: the write drops a commit and leaves the gateway on a pod that is not the target; only that step is not Safe. |
| `Coherence.CoherenceKept` | internal/controller/memgraph_node.go:107-260 | From true caches, a step leaves them true if and only if it is not a lost command whose effect is cached. |
| `Coherence.CoherentThroughout` | internal/controller/memgraph_node.go:107-260 | In every run without such commands a cached role is absent or the true role, and a valid cached list names exactly the real registrations with their modes. |
| `Coherence.ConfirmedThroughout` | internal/controller/controller_reconcile.go:239-257 | In every run, lost commands included, a pod read as replica or demoted since the pass began is a replica. |
| `Coherence.StrictExactlyComplement` | internal/controller/controller_core.go:316-333 | In every run a registration of pod j on pod i is STRICT_SYNC exactly when i and j are 0 and 1 in some order, only these two hold registrations, and the target is one of them. |
| `Coherence.AgreementKept` | internal/controller/controller_core.go:246-299 | The target in memory stops agreeing with the ConfigMap exactly when the ConfigMap write of another index is lost while a target is loaded. |
| `Coherence.TargetsAgreeThroughout` | internal/controller/controller_core.go:210-299 | In every run without such a write the target in memory is unset or equal to the stored one. |
| `SingleSourceRule.RegistrationsSafeThroughout` | internal/controller/controller_reconcile.go:286-336 | In every run, a registration issued by a pass is made on the target for a pod read as replica or demoted in that pass, which is a replica; the known pods are exactly the informer's, no other was last observed as main, and with known outcomes any other main is one whose role was not read. |
| `SingleSourceRule.SingleSourceThroughout` | internal/controller/controller_reconcile.go:286-336 | In every run with known outcomes and a known complement at each registration, no replica is registered on two mains. |
| `SingleSourceRule.RegistrationSafeIff` | internal/controller/controller_reconcile.go:286-336 | A new registration keeps the single-source rule in all clusters that look the same to the controller if and only if the complement's role is cached, or it was demoted in this pass, or the list just read shows it strict and ready. |
| `SingleSourceRule.BlindRegistrationBreaksSingleSource` | internal/controller/controller_reconcile.go:290-306 | A concrete run in which the skipped unreadable pod is a main and a replica gets a second source. |
| `NodeCache.LostFitsIff` | internal/controller/memgraph_node.go:153-260 | After a lost command a true cache is still true if and only if it holds nothing the command changed. |
| `NodeCache.MemgraphNode.GetReplicationRole` | internal/controller/memgraph_node.go:107-123 | The cached role, replaced by the true one if absent or on request; a failed query changes nothing; a true cache stays true. |
| `NodeCache.MemgraphNode.GetReplicas` | internal/controller/memgraph_node.go:125-149 | Succeeds only on a cached main, with the cached list or a fresh one that names each registration once in its mode; a failure changes at most the role; a true cache stays true. |
| `NodeCache.MemgraphNode.SetToMainRole` | internal/controller/memgraph_node.go:153-170 | Success promotes and clears role and list; failure leaves the cache, and the instance as it was or promoted. A true cache stays true exactly unless a lost promotion meets a cached replica. |
| `NodeCache.MemgraphNode.SetToReplicaRole` | internal/controller/memgraph_node.go:187-204 | The same for demotion, exactly unless a lost demotion meets a cached main. |
| `NodeCache.MemgraphNode.RegisterReplica` | internal/controller/memgraph_node.go:172-185 | Success registers a name the instance did not have, in the given mode, and invalidates the list; failure leaves the cache. A true cache stays true exactly unless a lost registration meets a valid list. |
| `NodeCache.MemgraphNode.DropReplica` | internal/controller/memgraph_node.go:239-260 | Success removes a registration the instance had and the first cached row of that name; failure leaves the cache. A true cache stays true exactly unless a lost drop meets a valid list. |
| `NodeCache.WithoutRow` | internal/controller/memgraph_node.go:251-258 | Cuts the first row of that name out of the list. |
| `TargetIndex.TargetIndex.GetTargetMainIndex` | internal/controller/controller_core.go:210-244 | A loaded index is returned for good; otherwise the stored one if it can be read, and no index at all if not. |
| `TargetIndex.TargetIndex.SetTargetMainIndex` | internal/controller/controller_core.go:246-299 | Success changes both copies, failure at most the stored one; they stop agreeing exactly when a write that changed the stored index is lost while an index is loaded. |
| `Controller.Controller.GetTargetMainIndex` | internal/controller/controller_core.go:210-244 | Success: the index is 0 or 1, was in memory or stored, and memory holds it. Failure: memory has none, nothing changes, and either nothing is stored or it could not be read. |
| `Controller.IsPodReady` | internal/controller/kubernetes.go:65-75 | Not being deleted, and the first condition of type Ready holds. |
| `Controller.Controller.GetHealthyRole` | internal/controller/queue_failover.go:408-441 | Healthy only with a ready pod that has an address and a known role, cached before or read now; touches that pod's cache only; without faults such a pod is healthy. |
| `Controller.Controller.CheckGate` | internal/controller/queue_failover.go:243-299 | Passes exactly when the first row of the complement is strict and every row is ready. |
| `Controller.Controller.PromoteSyncReplica` | internal/controller/queue_failover.go:354-406 | Success means a query after the SET saw the pod as main and it is one; targets, other caches and the closed gateway are untouched either way. |
| `Controller.Controller.FailoverIsSafe` | internal/controller/queue_failover.go:199-306 | The checks before a failover change caches only; passing them means the complement is ready and answers the ping, and the cached list shows it strict and all rows ready; without faults they refuse only for one of these reasons or a cached replica as target. |
| `Controller.Controller.SwitchTarget` | internal/controller/queue_failover.go:308-352 | Success moves the target, in memory and stored, to a main and the gateway to its address; any error comes from a failed command and leaves the target in memory and an empty gateway. |
| `Controller.Controller.ExecuteFailover` | internal/controller/queue_failover.go:199-352 | All or nothing: success flips the index onto a complement that was ready and answered the ping, a pod seen as main now or cached as main before, with the gateway on it; any error leaves the target unmoved and the gateway untouched or empty, and the stored index moves only by a lost write. With no failing query or command it errs only if no target is known or a check on pods or cached rows says no. |
| `Controller.Controller.PerformFailoverCheck` | internal/controller/queue_failover.go:148-196 | A health-check-failure event changes nothing but the loaded target. Otherwise success means that the target has moved to the complement, in memory and stored, with the gateway on it, or that a direct check saw the target ready and main, and then it has not moved; an error without faults means that the failover was refused. |
| `Controller.Controller.DirectCheck` | internal/controller/queue_failover.go:179-187 | Passes exactly when the target is ready, has an address and is cached as main, the role being read if it is unknown; changes caches only. |
| `Controller.Controller.RefreshNodes` | internal/controller/memgraph_cluster.go:42-77 | New pods get empty caches, known pods keep theirs with a new address, vanished pods stay; true cached roles stay true. |
| `Controller.Controller.NonTargetMainKnown` | internal/controller/controller_reconcile.go:290-306 | True exactly when a pod other than the target is cached as main after unknown roles were queried; false when all others are replicas and cached roles are true. |
| `Controller.Controller.EnsureReplicaRole` | internal/controller/controller_reconcile.go:238-257 | Success means the pod was read as replica or demoted in this pass and its cached role is true; the target's registrations are untouched. |
| `Controller.Controller.SafeToRegister` | internal/controller/controller_reconcile.go:286-328 | Both safety checks: passing them means no other pod is cached as main and the known pods are the informer's; they pass if all other pods are replicas, cached roles are true and all pods are known. |
| `Controller.Controller.RegisterMissing` | internal/controller/controller_reconcile.go:274-369 | Without faults the target loses no registration, and the missing replica is registered if all other pods are replicas, cached roles are true and all pods are known. |
| `Controller.Controller.RegisterOrDrop` | internal/controller/controller_reconcile.go:335-368 | Without faults the pod is registered in its mode; if the registration alone failed, it is dropped again, unless the refusal says diverged. |
| `Controller.Controller.ReconcileReplica` | internal/controller/controller_reconcile.go:221-369 | Counts a pod as ready exactly when the informer has it ready or terminating; without faults a ready pod ends a replica with a true cached role. |
| `Controller.Controller.ReconcileReplicas` | internal/controller/controller_reconcile.go:220-369 | For any number of pods in any order: all are reported ready exactly when each is in the informer and ready or terminating; without faults every ready pod ends a replica with a true cached role, and registered on the target if all of them were replicas with true cached roles before, while the target keeps its role, its listed rows and its registrations. |
| `Controller.Controller.ReconcileGateway` | internal/controller/controller_reconcile.go:397-425 | The upstream is set only to the target, exactly when its pod is ready, has an address, is seen as main and the cluster is healthy, unless a query fails. |
| `Controller.Controller.ReconcileListed` | internal/controller/controller_reconcile.go:213-378 | With all pods ready, success means that the gateway leads to the target, and an error without faults that the target has no address, a cached replica role or an unhealthy list; otherwise the pass does not open the gateway. |
| `Controller.Controller.PerformReconciliationActions` | internal/controller/controller_reconcile.go:87-379 | An error-free pass from a target that is main, whatever is cached, leaves all other pods replicas and all cached roles true; if it was so before, it leaves each registered, the complement STRICT_SYNC and the others ASYNC; it ends with the gateway on the target, or with an error and an unhealthy cluster. A known target is never lost. |
| `Controller.Controller.ReconcileTwice` | internal/controller/controller_reconcile.go:87-379 | Two error-free passes, whatever other mains there were and whatever is cached, end with the target the only main, every other pod registered on it, exactly the complement STRICT_SYNC, and the gateway on the target if the cluster is healthy. |
| `Controller.Controller.SeesLevelReplica` | internal/controller/memgraph_cluster.go:274-295 | True exactly when the first STRICT_SYNC row of pod-1 is ready with no lag. |
| `Controller.Controller.InitializeCluster` | internal/controller/memgraph_cluster.go:234-299 | Success means pod-1 was demoted and pod-0's list shows it strict, ready and level; without faults pod-1 is a replica registered STRICT_SYNC on pod-0, and from a main pod-0 success is exactly that its list shows pod-1 level. |
| `Controller.Controller.DiscoverClusterState` | internal/controller/memgraph_cluster.go:105-193 | An index is 0 or 1 and is found only if both pods are ready and either the pod is main beside a replica, or both were empty mains and initialisation succeeded, which leaves the pods seen to be level. Without faults a single main of the two ready pods is found, and two empty mains are initialised and yield 0 exactly when pod-1 is listed level. |
| `Controller.Controller.StoreDiscovered` | internal/controller/controller_reconcile.go:72-75 | Success changes both copies of the index, failure at most the stored one; if the write is not Safe and takes effect, the history is a safe run followed by that step. |
| `Controller.Controller.DiscoverAndStore` | internal/controller/controller_reconcile.go:59-76 | Without faults the single main of two ready pods is in memory and stored afterwards, whatever other operations came before the write, and so is pod-0 of a new cluster once it lists pod-1 level; until then nothing is stored. |
| `Controller.Controller.Tick` | internal/controller/controller_reconcile.go:48-83 | A cycle with discovery whenever the target cannot be read, and with any operations of other goroutines between discovery and its write. A target appears only if both eligible pods are ready, and without faults it does if one of them is the single main; an error-free cycle with a target that is main, or with one just discovered, converges and decides the gateway; the history stays a safe run unless the cycle ends with an adoption that is not Safe. |
| `Controller.Controller.Operate` | internal/controller/controller_reconcile.go:41-84 | Any number of cycles, queued failover checks, passes, status requests, restarts and outside steps, in any order, is a safe run of the machine, up to an adoption that is not Safe if one comes. |
| `ReplicaStatus.QueryReplicas` | internal/controller/memgraph_client.go:370-466 | Every row is kept with its name and mode and gets a status that is healthy exactly when it is "ready" with a non-negative lag. |
| `ReplicaStatus.ReadyOnlyIfReported` | internal/controller/memgraph_client.go:128-293 | A status is "ready", and a replica healthy, only if a decoded memgraph object says so. |
| `ReplicaStatus.ReportedFieldsKept` | internal/controller/memgraph_client.go:128-293 | An int lag, a string status and an int timestamp keep their values, each in its own field, on both paths, and decide the health. |
| `ReplicaStatus.DriverNumbersKept` | internal/controller/memgraph_client.go:235-293 | So do the driver's 64-bit integers, and floats without their fraction. |
| `ReplicaStatus.TruncatesTowardZero` | internal/controller/memgraph_client.go:247-248 | Converting a float drops its fraction, toward zero on both sides. |
| `ReplicaStatus.ColumnsWithoutObject` | internal/controller/memgraph_client.go:132-176 | Without a memgraph object each kind of column has its own status, no lag known, or 0 for the empty object, and is unhealthy. |
| `ReplicaStatus.ColumnsWithOddFields` | internal/controller/memgraph_client.go:178-290 | A string with missing or mistyped fields falls back field by field; a decoded value with a mistyped lag or status is malformed. |
| `ReplicaStatus.ParsersAgree` | internal/controller/memgraph_client.go:128-293 | The two parsers agree on every value with an int lag, a string status and an int timestamp, and differ on a 64-bit lag. |
| `ReplicaStatus.CheckHealth` | internal/controller/controller_core.go:784-870 | Succeeds exactly when every healable replica is healthy, or async, replicating, not negative in lag and level in timestamp with a healthy strict replica. |
| `ReplicaStatus.GateImpliesHealthy` | internal/controller/queue_failover.go:282-299 | When all replicas are ready, the cluster is healthy if and only if no lag is negative. |
| `Gateway.StepKeeps` | internal/gateway/server.go:167-180 | Every step of a handler, a closer or an upstream change keeps: a session not fully closed that has read an upstream is tracked and holds the current one, and a change that has copied the list waits for it. |
| `Gateway.SessionsHoldCurrentUpstream` | internal/gateway/server.go:296-336 | In every interleaving, when no change is in progress, each active session that has read an upstream holds the current one. |
| `Gateway.BytesGoToCurrentUpstream` | internal/gateway/server.go:296-363 | In every interleaving, every byte forwarded or delivered is exchanged with the upstream current at that moment, which is not empty. |
| `Gateway.OldUpstreamCutOff` | internal/gateway/server.go:167-180 | While an address is not the upstream nothing is exchanged with it, by handlers of any age. |
| `Gateway.ClosedForGood` | internal/gateway/connection_tracker.go:273-291 | A closed session stays closed and moves no byte, even if its handler is still dialling or attaching its backend. |
| `Gateway.ReadingBeforeTrackingLeaks` | internal/gateway/server.go:296-301 | If handlers could read the upstream before Track, a run exists in which a byte is forwarded to the old address after the change. |
| `GatewayServer.Server.SetUpstreamAddress` | internal/gateway/server.go:167-180 | Returns with the new address set, every session that had read another one closed, and every live one holding the new address; with the same address nothing changes. |
| `GatewayServer.Server.DisconnectAll` | internal/gateway/server.go:456-484 | Every session tracked at the call is closed on return, in spite of what other goroutines do meanwhile. |
| `GatewayServer.Server.HandleConnection` | internal/gateway/server.go:269-337 | A finished handler has read the upstream, was attached if the dial succeeded, and leaves its session closed and untracked; if nobody interferes it finishes on the current upstream and has forwarded all that the client sent. What it did is a piece of a run of the machine. |
| `GatewayServer.Server.ProxyConnections` | internal/gateway/server.go:340-363 | What is written to the backend is a prefix of the client's chunks, and all of them if nobody closes the session meanwhile. |
| `GatewayServer.Server.SetBackendConnection` | internal/gateway/connection_tracker.go:190-195 | The dialled connection is attached once nobody is inside Close. |
| `GatewayServer.Server.Close` | internal/gateway/connection_tracker.go:273-291 | Returns with the session closed, whoever closes it at the same time. |
| `GatewayServer.Server.Untrack` | internal/gateway/connection_tracker.go:77-86 | The session is closed before it is removed, and both have happened on return. |
| `GatewayServer.Server.CleanupIdle` | internal/gateway/connection_tracker.go:146-165 | Every session tracked at the call and idle for longer than the timeout is closed on return; the count is the number of sessions it removed, all of them idle, closed and untracked; if nobody interferes these are exactly the active idle ones, and no other session changes. |
| `RateLimiter.Limiter.Allow` | internal/gateway/rate_limiter.go:49-91 | Answer and new table are those of the token bucket the lemmas are about, with both clock readings. |
| `RateLimiter.Limiter.Release` | internal/gateway/rate_limiter.go:93-110 | One connection less for a known address that has any; nothing otherwise. |
| `RateLimiter.Limiter.CleanupInactiveClients` | internal/gateway/rate_limiter.go:166-180 | Keeps exactly the entries with a connection or with a refill at most twice the window ago. |
| `RateLimiter.TokensStayInBucket` | internal/gateway/rate_limiter.go:49-91 | In every run, with or without cleanup, tokens stay at least 0 and below burst between calls, and no connection count is negative. |
| `RateLimiter.RefusedIff` | internal/gateway/rate_limiter.go:70-90 | A call is refused exactly when the address has no token left and its last refill is less than a second old. |
| `RateLimiter.AdmissionsWithinBudget` | internal/gateway/rate_limiter.go:49-91 | From any state an address is admitted at most its tokens, or the burst if it is not known, plus rps per whole second since its last refill; without cleanup always, with cleanup if twice the window refills the bucket. |
| `RateLimiter.AdmissionsSinceCreation` | internal/gateway/rate_limiter.go:56-91 | From a moment at which it is not known, an address is admitted at most burst + rps * whole seconds, under the same condition. |
| `RateLimiter.WindowAdmissions` | internal/gateway/rate_limiter.go:49-91 | In any window, whatever came before and however far apart the clock readings of a call, an address is admitted at most burst - 1 + rps * (whole seconds + 1), under the same condition. |
| `RateLimiter.WindowBoundIsAttained` | internal/gateway/rate_limiter.go:70-90 | A concrete window that reaches this bound. |
| `BurstService.AdmissionsAtOnce` | internal/gateway/rate_limiter.go:70-90 | Of any number of calls at one instant exactly as many are admitted as there are tokens: those left plus rps per whole second since the last refill, up to the burst, or the burst for an address that is not known. |
| `BurstService.RefusedMeansServed` | internal/gateway/rate_limiter.go:49-91 | In every run, with or without cleanup, a call is refused only to an address that has been admitted rps times within the last second, or the burst if that is less. |
| `CleanupTransparency.ForgetfulRun` | internal/gateway/rate_limiter.go:166-180 | With a window that refills the bucket, the limiter with cleanup and one that never forgets give the same answers from related states and stay related. |
| `CleanupTransparency.CleanupTransparentIff` | internal/gateway/rate_limiter.go:166-180 | No run of prompt calls can tell cleanup from perfect memory if and only if rps * whole seconds in twice the window is at least burst. |
| `CleanupTransparency.BurstBoundedIff` | internal/gateway/rate_limiter.go:166-180 | With cleanup, an address that was not known is admitted at most burst + rps * whole seconds in every run, prompt or not, if and only if twice the window refills the bucket. |
| `CleanupTransparency.SlowCallsNoticeCleanup` | internal/gateway/rate_limiter.go:56-81 | At every setting some run with a call whose two clock readings differ notices the cleanup. |
| `Admission.TwoStepsAreAllow` | internal/gateway/rate_limiter.go:55-91 | Look-up and take with nothing in between are Allow. |
| `Admission.TwoStepsAreRelease` | internal/gateway/rate_limiter.go:93-110 | The two steps of Release with nothing in between are Release. |
| `Admission.SweepIsCleanup` | internal/gateway/rate_limiter.go:166-180 | A cleanup of the table of entries is the cleanup of the table of clients. |
| `Admission.StepBounded` | internal/gateway/server.go:238-278 | Every step, with cleanups between the two locks of Allow and of Release, keeps this: an entry in the table counts no more than the open connections admitted on it, and these release on it. |
| `ConnectionCount.ConnectionsConserved` | internal/gateway/server.go:238-278 | In every run the open connections of an address are its admissions less its releases, and its count is never above them and never negative. |
| `ConnectionCount.QuietMeansReleased` | internal/gateway/server.go:277-278 | In every run, when no connection of an address is open, each admission has been released once and the count is zero. |
| `ConnectionCount.AlwaysExactIff` | internal/gateway/rate_limiter.go:55-110 | The count of every address is exact at every moment of a run if and only if no admission falls on an entry removed from the table since Allow looked it up. |
| `ConnectionCount.AlwaysExactIffNeverCatches` | internal/gateway/rate_limiter.go:55-110 | With a window that refills the bucket and clocks that do not go back: exact at every moment if and only if no cleanup catches an entry between the two locks of Allow. |
| `ConnectionCount.NeverCatchesIsExact` | internal/gateway/rate_limiter.go:55-110 | At any setting a run in which no cleanup catches an entry counts exactly throughout. |
| `ConnectionCount.CleanupInsideAllowLosesCount` | internal/gateway/rate_limiter.go:65-91 | For every setting a run that ends with one connection open and none counted. |
| `Naming.PodIndexRoundTrip` | internal/common/config.go:73-93 | The ordinal read back from a pod name is the one it was made from, whatever dashes the StatefulSet's name contains. |
| `Naming.NoPodIndex` | internal/common/config.go:81-93 | Without a dash there is no ordinal; otherwise it is what the text after the last dash reads as, or none. |
| `Naming.AtoiReads` | internal/common/config.go:88 | The integer conversion reads decimals with or without a sign within 64 bits. |
| `Naming.AtoiRefuses` | internal/common/config.go:88 | It reads nothing but an optional sign and digits, and no sign alone. |
| `Naming.PodNamesDistinct` | internal/common/config.go:73-75 | Pod names are equal exactly when the ordinals are. |
| `Naming.GetReplicaName` | internal/controller/memgraph_node.go:77-89 | Same length, each dash an underscore, everything else unchanged in place. |
| `Naming.ReplicaNamesDistinct` | internal/controller/memgraph_node.go:91-94 | On names made of letters, digits, hyphens and dots, replica names are equal exactly when the pod names are. |
| `Naming.PodReplicaNamesDistinct` | internal/controller/memgraph_node.go:91-94 | Two pods of one StatefulSet have the same replica name exactly when they are the same pod, whatever its name. |
| `Selection.SortDescending` | internal/controller/controller_core.go:489-492 | A permutation of its input in descending order of names. |
| `Selection.SelectBestReplica` | internal/controller/controller_core.go:457-501 | For any iteration order, the ready replica other than the target with the highest name; none exactly when there is no such replica. |
| `Selection.SyncReplicaIsLastChoice` | internal/controller/controller_core.go:489-498 | The target is never selected, and the SYNC pod is selected exactly when it is the only eligible one. |
| `Selection.HighestOrdinalIff` | internal/controller/controller_core.go:489-498 | Names order pods as ordinals do if and only if there are at most ten. |
| `Selection.TenPodsHighestOrdinal` | internal/controller/controller_core.go:494-498 | With ordinals below ten the highest eligible ordinal is selected. |

## Left out

- GetTargetMainIndex: a stored index is taken to be 0 or 1 in `Controller`; how its text is parsed is not modelled.
- SetTargetMainIndex: in `Controller`, as the failover's step of the machine, it is issued only in the situation of `MayPersist`, which its caller is proved to meet; discovery's call is `StoreDiscovered`, and `TargetIndex` has it for any index.
- GetReplicationRole: the methods of `Controller` named after those of a node are its calls as steps of the machine, and require the situation in which the controller makes them; their callers are proved to meet it, and `NodeCache` has them for any caller.
- Tick: a pass works on one snapshot of the informer cache, where the code looks single pods up again; the informer itself is a parameter. Operations of other goroutines come whole, and only between discovery's last query and its write; in the machine the write comes at any moment. What follows an unsafe adoption is not followed up.
- Operate: status requests and callbacks come between operations, not inside them.
- DiscoverClusterState: storage counts are parameters, and the two ways of finding no index, with and without an error, are one result.
- HandleConnection: a handler that has not been granted the read lock by the end is reported as unfinished; progress of locks is not proved.
- ProxyConnections: the two copy directions are one loop, with the backend's bytes as deliveries of no content.
- CleanupIdle: the sessions' last activity is a parameter; CleanupStale is left out.
- Allow: seconds are a whole-number division of nanoseconds; the code goes through a float, which can round up for pauses of more than half a year.
- ReconcileTwice: convergence is proved for passes without faults and clusters without nodes of vanished pods, whose number would stop every registration; how soon such passes come is not modelled.
- The read gateway: its upstream is updated by callbacks without operationMu and falls back to the main by design; the roles its update reads are steps the machine allows but the pass does not take.
- preStop hooks and informer callbacks fill caches without a lock; such data races are not modelled, only their effect on the gateway.
- Leader election, the failover queue and its deduplication, the prober, HTTP API, metrics, logging, configuration loading and Kubernetes clients.
- TLS, sockets and buffer sizes; a reused pod IP; a limit on the number of connections, which the code does not enforce across goroutines.
- Reason strings of errors and health assessments, and the recovery advice derived from them.
- YAML text: parsing starts from the decoded value.

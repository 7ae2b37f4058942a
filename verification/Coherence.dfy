/** What the controller's caches are worth when commands may have effects that are not reported, the
    modes of registrations, and the two copies of the target index. */
module Coherence {
  import opened Common
  import opened ReplicaStatus
  import opened Topology
  import opened LogSafety

  /** The rows are exactly the registrations. */
  predicate Lists(list: seq<ReplicaInfo>, regs: map<Pod, Mode>) {
    Names(list) == regs.Keys && forall r | r in list :: regs[r.name] == r.mode
  }

  /** A cached role is absent or true; a valid cached list names exactly the registrations. */
  predicate Coherent(s: System) {
    forall p | p in s.nodes ::
      && p in s.dbs
      && (s.nodes[p].role.Some? ==> s.nodes[p].role.value == s.dbs[p].role)
      && (s.nodes[p].hasReplicas ==> s.nodes[p].role.Some? && Lists(s.nodes[p].replicas, s.dbs[p].regs))
  }

  /** The cached role of one pod is absent or true. */
  predicate RoleTrue(s: System, p: Pod) {
    p in s.nodes && s.nodes[p].role.Some? ==> p in s.dbs && s.nodes[p].role.value == s.dbs[p].role
  }

  ghost predicate RolesTrue(s: System) {
    forall p :: RoleTrue(s, p)
  }

  /** A pod confirmed in this pass is a replica. */
  predicate ConfirmedTrue(s: System) {
    forall p | p in s.confirmed :: p in s.dbs && s.dbs[p].role == Replica
  }

  /** Commands whose reported outcome may differ from their effect. */
  predicate LostCommand(st: Step) {
    (st.Promote? || st.Demote? || st.Register? || st.Drop?) && st.out == Lost
  }

  /** The controller's caches cannot tell that a lost command took effect: nothing it changes is
      cached. A lost promotion is always visible, because it is issued on a pod cached as replica. */
  predicate Unseen(s: System, st: Step) {
    match st
    case Promote(_, _) => false
    case Demote(p, _) => CachedRole(s, p) != Some(Main)
    case Register(i, j, _, _) =>
      i in s.nodes && (s.nodes[i].hasReplicas ==> j in Names(s.nodes[i].replicas))
    case _ => true
  }

  lemma AcknowledgedKeepsCoherence(s: System, st: Step, s': System)
    requires Coherent(s) && Next(s, st, s') && !LostCommand(st)
    ensures Coherent(s')
  {
    hide ListsReady, GateList, GateOpen, WithoutFirst;
    if st.Drop? {
      WithoutAbsent(s.nodes[st.source].replicas, st.replica);
    }
  }

  /** Pod by pod, cached roles that are true stay true, whatever else the caches hold. */
  lemma AcknowledgedKeepsRole(s: System, st: Step, s': System, p: Pod)
    requires Shape(s) && Next(s, st, s') && !LostCommand(st) && RoleTrue(s, p)
    ensures RoleTrue(s', p)
  {
    hide ListsReady, GateList, GateOpen, WithoutFirst, Truthful;
  }

  lemma LostAndCoherence(s: System, st: Step, s': System)
    requires Coherent(s) && ModesRight(s) && Next(s, st, s') && LostCommand(st)
    ensures Coherent(s') <==> Unseen(s, st)
  {
    hide ListsReady, GateList, GateOpen, WithoutFirst, Truthful, Committed, RefreshedNodes;
    match st
    case Promote(p, _) =>
      assert s'.nodes[p].role == Some(Replica) && s'.dbs[p].role == Main;
    case Demote(p, _) =>
      if CachedRole(s, p) == Some(Main) {
        assert s'.nodes[p].role == Some(Main) && s'.dbs[p].role == Replica;
      } else {
        assert s'.dbs[p].regs == s.dbs[p].regs || !s.nodes[p].hasReplicas;
      }
    case Register(i, j, _, _) =>
      assert s'.nodes[i] == s.nodes[i] && j in s'.dbs[i].regs;
      if Unseen(s, st) && s.nodes[i].hasReplicas {
        assert s'.dbs[i].regs == s.dbs[i].regs;
      }
    case Drop(i, j, _) =>
      if s.nodes[i].hasReplicas {
        assert s'.dbs[i].regs == s.dbs[i].regs;
      }
  }

  /** From coherent caches, exactly the lost commands with a visible effect leave them incoherent. */
  lemma CoherenceKept(s: System, st: Step, s': System)
    requires Coherent(s) && ModesRight(s) && Next(s, st, s')
    ensures Coherent(s') <==> !LostCommand(st) || Unseen(s, st)
  {
    if LostCommand(st) {
      LostAndCoherence(s, st, s');
    } else {
      AcknowledgedKeepsCoherence(s, st, s');
    }
  }

  /** In every run in which each command's effect is what was reported, or is not cached, the
      caches are coherent throughout. */
  lemma {:induction false} CoherentThroughout(states: seq<System>, steps: seq<Step>, k: nat)
    requires SafeRun(states, steps) && k < |states|
    requires forall i | 0 <= i < k :: !LostCommand(steps[i]) || Unseen(states[i], steps[i])
    ensures Coherent(states[k])
  {
    if k > 0 {
      CoherentThroughout(states, steps, k - 1);
      RunKeeps(states, steps, k - 1);
      hide Next, Coherent, Safe, Unseen, LostCommand;
      CoherenceKept(states[k - 1], steps[k - 1], states[k]);
    }
  }

  lemma ConfirmedKept(s: System, st: Step, s': System)
    requires ConfirmedTrue(s) && Next(s, st, s')
    ensures ConfirmedTrue(s')
  {
    hide ListsReady, GateList, GateOpen, WithoutFirst, RefreshedNodes, Truthful;
  }

  /** A pod confirmed as replica is one, in every run, even when commands are lost. */
  lemma {:induction false} ConfirmedThroughout(states: seq<System>, steps: seq<Step>, k: nat)
    requires Run(states, steps) && k < |states|
    ensures ConfirmedTrue(states[k])
  {
    if k > 0 {
      ConfirmedThroughout(states, steps, k - 1);
      hide Next, ConfirmedTrue;
      ConfirmedKept(states[k - 1], steps[k - 1], states[k]);
    }
  }

  // -- Strict registrations and the target index ---------------------------------------------

  /** Whatever the failover history, a registration of pod j on pod i is STRICT_SYNC exactly when
      {i, j} are the two eligible pods, and the stored and loaded target is one of these two. */
  lemma StrictExactlyComplement(states: seq<System>, steps: seq<Step>, k: nat)
    requires SafeRun(states, steps) && k < |states|
    ensures forall i, j | i in states[k].dbs && j in states[k].dbs[i].regs ::
              i <= 1 && (states[k].dbs[i].regs[j] == StrictSync <==> i + j == 1)
    ensures states[k].persisted.Some? ==> states[k].persisted.value <= 1
    ensures states[k].mem.Some? ==> states[k].mem.value <= 1
  {
    RunKeeps(states, steps, k);
  }

  predicate TargetsAgree(s: System) {
    s.mem.None? || s.mem == s.persisted
  }

  /** A ConfigMap write of another index than the one in memory is lost. */
  predicate SplitsTargets(s: System, st: Step) {
    (st.PersistTarget? || st.Adopt?) && st.out == Lost && s.mem.Some? && s.mem != Some(st.i)
  }

  /** Memory and ConfigMap fall apart exactly then. */
  lemma AgreementKept(s: System, st: Step, s': System)
    requires Inv(s) && TargetsAgree(s) && Next(s, st, s')
    ensures TargetsAgree(s') <==> !SplitsTargets(s, st)
  {
    hide ListsReady, WithoutFirst, RefreshedNodes, Truthful, Committed, Ordered, ModesRight, Sound;
  }

  lemma {:induction false} TargetsAgreeThroughout(states: seq<System>, steps: seq<Step>, k: nat)
    requires SafeRun(states, steps) && k < |states|
    requires forall i | 0 <= i < k :: !SplitsTargets(states[i], steps[i])
    ensures TargetsAgree(states[k])
  {
    if k > 0 {
      TargetsAgreeThroughout(states, steps, k - 1);
      RunKeeps(states, steps, k - 1);
      hide Next, Inv, Safe;
      AgreementKept(states[k - 1], steps[k - 1], states[k]);
    }
  }
}

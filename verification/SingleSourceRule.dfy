/** The single-source rule of replication: a replica never receives replication from two mains. */
module SingleSourceRule {
  import opened Common
  import opened ReplicaStatus
  import opened Topology
  import opened LogSafety
  import opened Coherence

  predicate SingleSource(s: System) {
    forall m, n, j | m in s.dbs && n in s.dbs && m != n && j in s.dbs[m].regs && j in s.dbs[n].regs ::
      s.dbs[m].role == Replica || s.dbs[n].role == Replica
  }

  /** When a pass registers a replica, the other eligible pod is known to be one: its role is cached, or
      it was demoted in this pass, or the list just read shows it ready. Otherwise its role could not
      be read. */
  predicate Known(s: System, st: Step) {
    st.Register? && s.mem.Some? && st.source <= 1 ==>
      || CachedRole(s, Other(st.source)).Some?
      || Other(st.source) in s.confirmed
      || (s.relisted && GateList(s, st.source))
  }

  /** What holds at every registration issued by a pass: the pod is a replica, and any other main
      among the known pods is one whose role could not be read. */
  lemma RegistrationSafety(s: System, st: Step)
    requires Coherent(s) && ConfirmedTrue(s) && s.mem.Some?
    requires st.Register? && Enabled(s, st)
    ensures st.replica in s.dbs && s.dbs[st.replica].role == Replica
    ensures s.nodes.Keys == s.known
    ensures forall k | k in s.nodes && k != st.source && s.dbs[k].role == Main ::
              s.nodes[k].role.None? && k !in s.confirmed
  {
  }

  /** In every run, a pass registers only a pod read as replica, or demoted, in that same pass, on the
      target, while no other known pod was last observed as main; if no lost command had a cached
      effect before, any other main is a pod whose role could not be read. */
  lemma RegistrationsSafeThroughout(states: seq<System>, steps: seq<Step>, k: nat)
    requires SafeRun(states, steps) && k < |steps| && steps[k].Register? && states[k].mem.Some?
    ensures var s, st := states[k], steps[k];
            && s.mem == Some(st.source) && s.nodes.Keys == s.known
            && st.replica in s.confirmed && st.replica in s.dbs && s.dbs[st.replica].role == Replica
            && forall q | q in s.nodes && q != st.source :: s.nodes[q].role != Some(Main)
    ensures (forall i | 0 <= i < k :: !LostCommand(steps[i]) || Unseen(states[i], steps[i])) ==>
              forall q | q in states[k].nodes && q != steps[k].source ::
                q in states[k].dbs && (states[k].dbs[q].role == Main ==> states[k].nodes[q].role.None?)
  {
    assert Next(states[k], steps[k], states[k + 1]);
    ConfirmedThroughout(states, steps, k);
    if forall i | 0 <= i < k :: !LostCommand(steps[i]) || Unseen(states[i], steps[i]) {
      CoherentThroughout(states, steps, k);
      RegistrationSafety(states[k], steps[k]);
    }
  }

  /** Every other step only removes registrations, and gives none to a new main. */
  lemma OnlyRegisterAdds(s: System, st: Step, s': System, m: Pod)
    requires Next(s, st, s') && !st.Register? && m in s'.dbs && s'.dbs[m].role == Main
    ensures s'.dbs[m].regs == map[]
            || (m in s.dbs && s.dbs[m].role == Main && s'.dbs[m].regs.Keys <= s.dbs[m].regs.Keys)
  {
    hide ListsReady, GateList, GateOpen, WithoutFirst, RefreshedNodes, Truthful;
  }

  /** Such a registration is made while the other eligible pod is a replica. */
  lemma KnownHasOneMain(s: System, st: Step)
    requires Shape(s) && CachesSound(s) && Coherent(s) && ConfirmedTrue(s)
    requires st.Register? && Enabled(s, st) && Known(s, st)
    ensures s.dbs[Other(st.source)].role == Replica
  {
    hide ListsReady, GateOpen, WithoutFirst, RefreshedNodes, Truthful;
  }

  predicate Sheds(s: System, s': System, m: Pod)
    requires m in s'.dbs
  {
    s'.dbs[m].role == Replica || s'.dbs[m].regs == map[]
    || (m in s.dbs && s.dbs[m].role == Main && s'.dbs[m].regs.Keys <= s.dbs[m].regs.Keys)
  }

  lemma SheddingKeepsSingleSource(s: System, s': System)
    requires SingleSource(s) && forall m | m in s'.dbs :: Sheds(s, s', m)
    ensures SingleSource(s')
  {
  }

  lemma RegisterKeepsSingleSource(s: System, st: Step, s': System)
    requires Structured(s) && Next(s, st, s') && st.Register?
    requires s.dbs[Other(st.source)].role == Replica
    ensures SingleSource(s')
  {
    RegisterStructured(s, st, s');
    assert s'.dbs[Other(st.source)].role == Replica;
    hide Next, Shape, Routed, Ordered;
    assert forall m | m in s'.dbs && s'.dbs[m].regs != map[] :: m == st.source || m == Other(st.source) by {
      forall m | m in s'.dbs && s'.dbs[m].regs != map[]
        ensures m <= 1
      {
        var j :| j in s'.dbs[m].regs;
      }
    }
  }

  lemma SingleSourceKept(s: System, st: Step, s': System)
    requires Inv(s) && Coherent(s) && ConfirmedTrue(s) && SingleSource(s)
    requires Next(s, st, s') && Known(s, st)
    ensures SingleSource(s')
  {
    hide SingleSource, Structured, Sound, Coherent, ConfirmedTrue, Known, Enabled, Apply;
    if st.Register? {
      assert Shape(s) && CachesSound(s) by { PartsOf(s); }
      KnownHasOneMain(s, st);
      RegisterKeepsSingleSource(s, st, s');
    } else {
      forall m | m in s'.dbs && s'.dbs[m].role == Main
        ensures Sheds(s, s', m)
      {
        OnlyRegisterAdds(s, st, s', m);
      }
      SheddingKeepsSingleSource(s, s');
    }
  }

  lemma PartsOf(s: System)
    requires Inv(s)
    ensures Shape(s) && CachesSound(s)
  {
  }

  /** In every run with known outcomes and known complements that starts with at most one source per
      replica, no replica is ever registered on two mains at once. */
  lemma {:induction false} SingleSourceThroughout(states: seq<System>, steps: seq<Step>, k: nat)
    requires SafeRun(states, steps) && k < |states| && SingleSource(states[0])
    requires forall i | 0 <= i < k :: !LostCommand(steps[i]) || Unseen(states[i], steps[i])
    requires forall i | 0 <= i < k :: Known(states[i], steps[i])
    ensures SingleSource(states[k])
  {
    if k > 0 {
      SingleSourceThroughout(states, steps, k - 1);
      CoherentThroughout(states, steps, k - 1);
      ConfirmedThroughout(states, steps, k - 1);
      RunKeeps(states, steps, k - 1);
      hide Next, Inv, Safe, Coherent, ConfirmedTrue, SingleSource, Known, LostCommand, Unseen;
      SingleSourceKept(states[k - 1], steps[k - 1], states[k]);
    }
  }

  // -- Which registrations are safe from what the controller can see ---------------------------

  /** What the run theorems establish about a state. */
  ghost predicate Trusted(s: System) {
    Inv(s) && Coherent(s) && ConfirmedTrue(s) && SingleSource(s)
  }

  /** The registration keeps the rule in whatever cluster looks like this to the controller. */
  ghost predicate SingleSourceWhateverTheInstances(s: System, st: Step) {
    forall s2: System | s2 == s.(dbs := s2.dbs, pending := s2.pending) && Trusted(s2) && Enabled(s2, st) ::
      SingleSource(Apply(s2, st))
  }

  /** The unread complement may be a main that still replicates to pod j. */
  function WithSecondSource(s: System, o: Pod, j: Pod): System
    requires o in s.dbs
  {
    s.(dbs := s.dbs[o := Db(Main, map[j := Async], s.dbs[o].log)], pending := {})
  }

  /** A registration of a pod the target does not have yet, by a pass that has read the target. */
  predicate NewRegistration(s: System, st: Step) {
    && st.Register? && Enabled(s, st) && s.mem.Some? && CachedRole(s, st.source) == Some(Main)
    && st.replica !in s.dbs[st.source].regs
  }

  lemma SecondSourceStructured(s: System, st: Step)
    requires Trusted(s) && NewRegistration(s, st) && !Known(s, st)
    ensures Other(st.source) in s.dbs
    ensures Structured(WithSecondSource(s, Other(st.source), st.replica))
  {
    hide Sound, Coherent, SingleSource, ListsReady, GateList, GateOpen;
  }

  lemma SecondSourceSound(s: System, st: Step)
    requires Trusted(s) && NewRegistration(s, st) && !Known(s, st)
    ensures Other(st.source) in s.dbs && Sound(WithSecondSource(s, Other(st.source), st.replica))
  {
    hide SingleSource, ListsReady, Ordered, ModesRight;
  }

  lemma SecondSourceCoherent(s: System, st: Step)
    requires Trusted(s) && NewRegistration(s, st) && !Known(s, st)
    ensures Other(st.source) in s.dbs
    ensures var s2 := WithSecondSource(s, Other(st.source), st.replica);
            Coherent(s2) && ConfirmedTrue(s2) && Enabled(s2, st)
  {
    hide SingleSource, Sound, Ordered, Routed, GateList, GateOpen;
  }

  lemma SecondSourceSingle(s: System, i: Pod, j: Pod)
    requires ModesRight(s) && i <= 1 && i in s.dbs && Other(i) in s.dbs && j !in s.dbs[i].regs
    ensures SingleSource(WithSecondSource(s, Other(i), j))
  {
    var s2 := WithSecondSource(s, Other(i), j);
    forall m | m in s2.dbs && s2.dbs[m].regs != map[]
      ensures m <= 1
    {
      var k :| k in s2.dbs[m].regs;
    }
  }

  lemma SecondSourceSplits(s: System, st: Step)
    requires Shape(s) && NewRegistration(s, st) && s.dbs[st.source].role == Main && st.replica != Other(st.source)
    ensures var s2 := WithSecondSource(s, Other(st.source), st.replica);
            Enabled(s2, st) ==> !SingleSource(Apply(s2, st))
  {
    hide GateList, GateOpen;
    var i, o, j := st.source, Other(st.source), st.replica;
    var s2 := WithSecondSource(s, o, j);
    if Enabled(s2, st) {
      var s3 := Apply(s2, st);
      assert j in s3.dbs[i].regs && j in s3.dbs[o].regs;
    }
  }

  /** The target cached as main is one, and the unread complement is not the pod registered. */
  lemma NewRegistrationFacts(s: System, st: Step)
    requires Trusted(s) && NewRegistration(s, st) && !Known(s, st)
    ensures Shape(s) && ModesRight(s) && s.dbs[st.source].role == Main && st.replica != Other(st.source)
  {
    hide Sound, SingleSource, GateList, GateOpen;
  }

  /** What the controller can see decides it: a new registration is sure to keep the single-source rule
      exactly when the complement is known. */
  lemma RegistrationSafeIff(s: System, st: Step)
    requires Trusted(s) && NewRegistration(s, st)
    ensures Known(s, st) <==> SingleSourceWhateverTheInstances(s, st)
  {
    hide Structured, Sound, Coherent, ConfirmedTrue, SingleSource, Enabled, Apply;
    if Known(s, st) {
      forall s2: System | s2 == s.(dbs := s2.dbs, pending := s2.pending) && Trusted(s2) && Enabled(s2, st)
        ensures SingleSource(Apply(s2, st))
      {
        SingleSourceKept(s2, st, Apply(s2, st));
      }
    } else {
      SecondSourceStructured(s, st);
      SecondSourceSound(s, st);
      SecondSourceCoherent(s, st);
      NewRegistrationFacts(s, st);
      SecondSourceSingle(s, st.source, st.replica);
      SecondSourceSplits(s, st);
      var s2 := WithSecondSource(s, Other(st.source), st.replica);
      assert s2 == s.(dbs := s2.dbs, pending := s2.pending) && Trusted(s2);
    }
  }

  /** A controller restarted after a failover to pod-1: pod-0 is still a main and still has pod-2. */
  function OldMainUnreachable(): System {
    System(map[0 := Db(Main, map[2 := Async], []), 1 := Db(Main, map[], []), 2 := Db(Replica, map[], [])],
           {}, map[], {}, None, Some(1), None, false, false, {})
  }

  /** The same cluster after the pass has loaded the target, refreshed its pods and read pod-2. */
  function OldMainUnread(): System {
    OldMainUnreachable().(
      nodes := map[0 := Node("10.0.0.1", None, [], false), 1 := Node("10.0.0.2", None, [], false),
                   2 := Node("10.0.0.3", Some(Replica), [], false)],
      known := {0, 1, 2}, mem := Some(1), confirmed := {2})
  }

  function BlindPass(): seq<Step> {
    [LoadTarget, Refresh(map[0 := "10.0.0.1", 1 := "10.0.0.2", 2 := "10.0.0.3"]), ReadRole(2),
     Register(1, 2, Async, Acknowledged)]
  }

  lemma OldMainUnreachableInit()
    ensures Init(OldMainUnreachable()) && SingleSource(OldMainUnreachable())
  {
  }

  lemma BlindPassReads(s1: System, s2: System)
    requires s1 == OldMainUnreachable().(mem := Some(1))
    requires s2 == s1.(nodes := RefreshedNodes(s1, BlindPass()[1].ips), known := {0, 1, 2})
    ensures Next(OldMainUnreachable(), BlindPass()[0], s1) && Next(s1, BlindPass()[1], s2)
    ensures Next(s2, BlindPass()[2], OldMainUnread())
  {
    hide Committed, WithoutFirst, Truthful, ListsReady, GateList, GateOpen;
    var s3 := Apply(s2, BlindPass()[2]);
    assert s3.nodes == OldMainUnread().nodes;
  }

  lemma BlindPassRegisters(s: System)
    requires s == OldMainUnread()
    ensures Enabled(s, BlindPass()[3]) && !SingleSource(Apply(s, BlindPass()[3]))
    ensures !Known(s, BlindPass()[3])
  {
    hide Committed, WithoutFirst, Truthful, ListsReady, GateList, GateOpen, RefreshedNodes;
    var s' := Apply(s, BlindPass()[3]);
    assert 2 in s'.dbs[0].regs && 2 in s'.dbs[1].regs;
  }

  /** Pod-0's role cannot be read, so the dual-main check skips it and pod-2 gets a second source. */
  lemma BlindRegistrationBreaksSingleSource() returns (states: seq<System>)
    ensures Run(states, BlindPass())
    ensures SingleSource(states[0]) && !SingleSource(states[4])
    ensures !Known(states[3], BlindPass()[3])
  {
    OldMainUnreachableInit();
    var s0 := OldMainUnreachable();
    var s1 := s0.(mem := Some(1));
    var s2 := s1.(nodes := RefreshedNodes(s1, BlindPass()[1].ips), known := {0, 1, 2});
    var s3 := OldMainUnread();
    BlindPassReads(s1, s2);
    BlindPassRegisters(s3);
    states := [s0, s1, s2, s3, Apply(s3, BlindPass()[3])];
    hide Enabled, Apply, Init, SingleSource, Known, OldMainUnreachable, OldMainUnread, RefreshedNodes;
  }
}

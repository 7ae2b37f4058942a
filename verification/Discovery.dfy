/** Discovery's write of the target index. It runs when no target can be read, whether or not one is
    stored, and holds no lock: other goroutines may load and move the target between its last query and
    its write. Exactly when the write keeps every committed write. */
module Discovery {
  import opened Common
  import opened ReplicaStatus
  import opened Topology
  import opened LogSafety

  // -- What the controller can see decides it --------------------------------------------------

  /** A cluster that looks like s to the controller: same caches, indices and gateway, but possibly other
      instances and transactions behind them. */
  ghost predicate Lookalike(s: System, s2: System) {
    s2 == s.(dbs := s2.dbs, pending := s2.pending) && Inv(s2)
  }

  ghost predicate KeepsLogInLookalikes(s: System, st: Step)
    requires st.Adopt? && st.i <= 1
  {
    forall s2 | Lookalike(s, s2) :: TargetLog(s2) <= TargetLog(Apply(s2, st))
  }

  /** It keeps all that the theorems about runs rest on, too. */
  ghost predicate KeepsInvInLookalikes(s: System, st: Step)
    requires st.Adopt? && st.i <= 1
  {
    forall s2 | Lookalike(s, s2) :: TargetLog(s2) <= TargetLog(Apply(s2, st)) && Inv(Apply(s2, st))
  }

  /** Pod p may hold a write that no other instance has. */
  function WithUnreplicatedWrite(s: System, p: Pod): System
    requires p in s.dbs
  {
    s.(dbs := s.dbs[p := s.dbs[p].(log := TargetLog(s) + [0])], pending := {})
  }

  lemma UnreplicatedWriteStructured(s: System, i: Pod)
    requires Inv(s) && i <= 1 && !LevelSeen(s, i)
    ensures Other(i) in s.dbs && Structured(WithUnreplicatedWrite(s, Other(i)))
  {
    hide CachesSound, StartupSound, PendingSound, ListedLevel, GateList;
  }

  lemma UnreplicatedWriteSound(s: System, i: Pod)
    requires Inv(s) && i <= 1 && !LevelSeen(s, i)
    ensures Other(i) in s.dbs && Sound(WithUnreplicatedWrite(s, Other(i)))
  {
    hide ListsReady, ModesRight, Ordered;
  }

  lemma UnreplicatedWriteLost(s: System, st: Step)
    requires Inv(s) && st.Adopt? && st.i <= 1 && !LevelSeen(s, st.i) && Other(st.i) in s.dbs
    requires st.out == Acknowledged || s.mem.None?
    ensures var s2 := WithUnreplicatedWrite(s, Other(st.i));
            !(TargetLog(s2) <= TargetLog(Apply(s2, st)))
  {
    hide CachesSound, StartupSound, PendingSound, ListedLevel, GateList;
  }

  /** A lost write over a loaded target leaves memory and ConfigMap on pods that are not level. */
  lemma UnreplicatedWriteSplits(s: System, st: Step)
    requires Inv(s) && st.Adopt? && st.i <= 1 && !LevelSeen(s, st.i) && Other(st.i) in s.dbs
    requires st.out == Lost && s.mem.Some?
    ensures !Inv(Apply(WithUnreplicatedWrite(s, Other(st.i)), st))
  {
    hide CachesSound, StartupSound, PendingSound, ListedLevel, GateList;
    var s2 := Apply(WithUnreplicatedWrite(s, Other(st.i)), st);
    assert |s2.dbs[st.i].log| <= |TargetLog(s)| < |s2.dbs[Other(st.i)].log|;
    assert !SplitSound(s2);
  }

  /** The adopted pod may be a main that has lost the registrations its cached list shows. */
  function WithStaleList(s: System, i: Pod): System
    requires i in s.dbs
  {
    s.(dbs := s.dbs[i := Db(Main, map[], s.dbs[i].log)], pending := {})
  }

  predicate OwnListStale(s: System, i: Pod) {
    && s.mem.Some? && s.mem != Some(i) && GateList(s, i)
    && !(GateList(s, s.mem.value) && (s.relisted || CachedRole(s, i) == Some(Main)))
  }

  lemma StaleListPossible(s: System, i: Pod)
    requires Inv(s) && i <= 1 && OwnListStale(s, i)
    ensures i in s.dbs && Inv(WithStaleList(s, i))
  {
    hide ListsReady, ModesRight, Ordered;
    StaleListStructured(s, i);
    assert Sound(WithStaleList(s, i));
  }

  lemma StaleListStructured(s: System, i: Pod)
    requires Structured(s) && i <= 1
    ensures i in s.dbs && Structured(WithStaleList(s, i))
  {
  }

  lemma StaleListBreaks(s: System, st: Step)
    requires Inv(s) && st.Adopt? && st.i <= 1 && OwnListStale(s, st.i) && st.out == Acknowledged && st.i in s.dbs
    ensures !Inv(Apply(WithStaleList(s, st.i), st))
  {
    hide ListsReady, ModesRight, Ordered, StartupSound;
    var s2 := Apply(WithStaleList(s, st.i), st);
    assert GateList(s2, st.i) && !Paired(s2, st.i);
  }

  /** Discovery goes by the caches alone, and so do the conditions. */
  lemma LookalikeAdopts(s: System, s2: System, st: Step)
    requires Lookalike(s, s2) && st.Adopt?
    ensures LevelSeen(s, st.i) <==> LevelSeen(s2, st.i)
    ensures Safe(s, st) <==> Safe(s2, st)
  {
  }

  lemma LevelKeepsLog(s: System, st: Step)
    requires Inv(s) && st.Adopt? && st.i <= 1 && LevelSeen(s, st.i)
    ensures TargetLog(s) <= TargetLog(Apply(s, st))
  {
    hide StartupSound, PendingSound, ModesRight, ListsReady;
  }

  lemma LookalikeWithWrite(s: System, i: Pod)
    requires Inv(s) && i <= 1 && !LevelSeen(s, i)
    ensures Other(i) in s.dbs && Lookalike(s, WithUnreplicatedWrite(s, Other(i)))
  {
    hide Structured, Sound;
    UnreplicatedWriteStructured(s, i);
    UnreplicatedWriteSound(s, i);
  }

  /** An adoption is sure to leave a target that holds every committed write exactly when the controller
      can see that the pod is level. A lost write over a loaded target leaves the target as it is. */
  lemma AdoptionKeepsLogIff(s: System, st: Step)
    requires Inv(s) && st.Adopt? && st.i <= 1 && (st.out == Acknowledged || s.mem.None?)
    ensures LevelSeen(s, st.i) <==> KeepsLogInLookalikes(s, st)
  {
    hide Inv, Apply, TargetLog, LevelSeen;
    if LevelSeen(s, st.i) {
      forall s2 | Lookalike(s, s2)
        ensures TargetLog(s2) <= TargetLog(Apply(s2, st))
      {
        LookalikeAdopts(s, s2, st);
        LevelKeepsLog(s2, st);
      }
    } else {
      LookalikeWithWrite(s, st.i);
      UnreplicatedWriteLost(s, st);
    }
  }

  /** An adoption is sure to keep every committed write, at once and in all that may follow, exactly when
      it is Safe. */
  lemma AdoptionSafeIff(s: System, st: Step)
    requires Inv(s) && st.Adopt? && st.i <= 1
    ensures Safe(s, st) <==> KeepsInvInLookalikes(s, st)
  {
    hide Inv, Apply, TargetLog, LevelSeen, GateList;
    if Safe(s, st) {
      forall s2 | Lookalike(s, s2)
        ensures TargetLog(s2) <= TargetLog(Apply(s2, st)) && Inv(Apply(s2, st))
      {
        LookalikeAdopts(s, s2, st);
        StepKeeps(s2, st, Apply(s2, st));
      }
    } else if !LevelSeen(s, st.i) {
      LookalikeWithWrite(s, st.i);
      if st.out == Acknowledged || s.mem.None? {
        UnreplicatedWriteLost(s, st);
      } else {
        UnreplicatedWriteSplits(s, st);
      }
    } else if s.gateway.Some? {
      OpenGatewayBreaks(s, st);
    } else {
      StaleListPossible(s, st.i);
      StaleListBreaks(s, st);
      assert Lookalike(s, WithStaleList(s, st.i));
    }
  }

  lemma OpenGatewayBreaks(s: System, st: Step)
    requires Inv(s) && st.Adopt? && s.mem.Some? && s.mem != Some(st.i) && st.i <= 1
    requires st.out == Acknowledged && s.gateway.Some?
    ensures Lookalike(s, s) && !Inv(Apply(s, st))
  {
  }
}

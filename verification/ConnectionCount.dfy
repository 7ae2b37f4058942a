/** How the limiter's connection count and the open connections compare over runs of the admission path:
    never more, at every moment equal exactly when no cleanup comes between the two locks of an Allow. */
module ConnectionCount {
  import opened Common
  import opened RateLimiter
  import opened CleanupTransparency
  import opened Admission

  /** Allow says yes in this step. */
  predicate Admits(g: Settings, w: Gate, step: Step) {
    step.Take? && Enabled(w, step) && Granted(g, w.heap[w.asking.entry].client, step.now)
  }

  /** It says so on an entry that is not in the table any more. */
  predicate Orphans(g: Settings, w: Gate, step: Step) {
    Admits(g, w, step) && !Attached(w, w.asking.ip, w.asking.entry)
  }

  /** The limiter counts exactly the open connections of every address. */
  ghost predicate Exact(w: Gate) {
    forall ip :: Counted(w, ip) == |OpenOf(w, ip)|
  }

  lemma TakeOpens(g: Settings, w: Gate, now: int, ip: Address)
    requires w.asking.Looking? && w.asking.entry < |w.heap| && w.ids !in w.conns
    ensures |OpenOf(AfterTake(g, w, now), ip)|
            == |OpenOf(w, ip)| + if Admits(g, w, Take(now)) && ip == w.asking.ip then 1 else 0
  {
    hide Refill, Granted, Taken, ConnsOf;
    OneMore(w.conns, w.ids, Conn(w.asking.ip, w.asking.entry, Asked), ip);
  }

  lemma OneMore(conns: map<ConnId, Conn>, c: ConnId, x: Conn, ip: Address)
    requires c !in conns
    ensures |ConnsOf(conns[c := x], ip)| == |ConnsOf(conns, ip)| + if x.ip == ip then 1 else 0
  {
    var more := conns[c := x];
    if x.ip == ip {
      assert ConnsOf(more, ip) == ConnsOf(conns, ip) + {c};
    } else {
      assert ConnsOf(more, ip) == ConnsOf(conns, ip);
    }
  }

  lemma TakeCounts(g: Settings, w: Gate, now: int, ip: Address)
    requires HeapSound(w) && w.asking.Looking?
    ensures Counted(AfterTake(g, w, now), ip) == Counted(w, ip)
            + if Admits(g, w, Take(now)) && !Orphans(g, w, Take(now)) && ip == w.asking.ip then 1 else 0
  {
    hide Refill, Granted, Taken;
    TakenCounts(g, w.heap[w.asking.entry].client, now);
  }

  lemma OneLess(conns: map<ConnId, Conn>, c: ConnId, ip: Address)
    requires c in conns
    ensures |ConnsOf(conns - {c}, ip)| == |ConnsOf(conns, ip)| - if conns[c].ip == ip then 1 else 0
    ensures conns[c].ip == ip ==> c in ConnsOf(conns, ip)
  {
    assert ConnsOf(conns - {c}, ip) == ConnsOf(conns, ip) - {c};
  }

  lemma DoneCloses(w: Gate, c: ConnId, ip: Address)
    requires c in w.conns && w.conns[c].phase.Releasing?
    ensures |OpenOf(AfterDone(w, c), ip)| == |OpenOf(w, ip)| - if ip == w.conns[c].ip then 1 else 0
  {
    hide ConnsOf;
    OneLess(w.conns, c, ip);
  }

  /** An exact count is exact after a release: the entry held is the one in the table. */
  lemma DoneCounts(w: Gate, c: ConnId, ip: Address)
    requires Bounded(w) && c in w.conns && w.conns[c].phase.Releasing? && Exact(w)
    ensures Counted(AfterDone(w, c), ip) == Counted(w, ip) - if ip == w.conns[c].ip then 1 else 0
  {
    var a := w.conns[c].ip;
    OneLess(w.conns, c, a);
    CountedAtMostOpen(w, a);
    assert ConnSound(w, c) && Counted(w, a) == |OpenOf(w, a)|;
    assert w.conns[c].phase.hold == Some(w.table[a]);
    hide Bounded, Exact, ConnsOf;
  }

  /** An exact count stays exact in every step but an admission on an orphaned entry, and not in that. */
  lemma StepExactIff(g: Settings, w: Gate, step: Step)
    requires Bounded(w) && Enabled(w, step) && Exact(w)
    ensures Exact(Next(g, w, step)) <==> !Orphans(g, w, step)
  {
    hide Bounded, AfterLookUp, AfterTake, AfterDone, AfterSweep, InPhase, Granted;
    var w' := Next(g, w, step);
    forall ip
      ensures |OpenOf(w', ip)| - Counted(w', ip) == if Orphans(g, w, step) && ip == w.asking.ip then 1 else 0
    {
      assert Counted(w, ip) == |OpenOf(w, ip)|;
      StepCounts(g, w, step, ip);
    }
    if Orphans(g, w, step) {
      assert Counted(w', w.asking.ip) != |OpenOf(w', w.asking.ip)|;
    }
  }

  lemma StepCounts(g: Settings, w: Gate, step: Step, ip: Address)
    requires Bounded(w) && Enabled(w, step) && Exact(w)
    ensures var w' := Next(g, w, step);
            |OpenOf(w', ip)| - Counted(w', ip) == if Orphans(g, w, step) && ip == w.asking.ip then 1 else 0
  {
    hide Balanced, AfterLookUp, AfterTake, AfterDone, AfterSweep, InPhase, Granted;
    assert Counted(w, ip) == |OpenOf(w, ip)|;
    match step
    case LookUp(a, seen) => LookUpKeepsCounts(g, w, a, seen);
    case Take(now) => TakeSound(g, w, now); TakeOpens(g, w, now, ip); TakeCounts(g, w, now, ip);
    case HandOver => PhaseKeepsCounts(w, w.asking.conn, Handling);
    case TurnAway => PhaseKeepsCounts(w, w.asking.conn, Releasing(Found(w, w.conns[w.asking.conn].ip)));
    case Finish(c) => PhaseKeepsCounts(w, c, Releasing(Found(w, w.conns[c].ip)));
    case Done(c) => DoneCloses(w, c, ip); DoneCounts(w, c, ip);
    case Sweep(now) => SweepKeepsCounts(g, w, now);
  }

  // -- Runs --------------------------------------------------------------------------------------

  predicate Run(g: Settings, w: Gate, steps: seq<Step>)
    decreases |steps|
  {
    steps == [] || (Enabled(w, steps[0]) && Run(g, Next(g, w, steps[0]), steps[1..]))
  }

  function End(g: Settings, w: Gate, steps: seq<Step>): Gate
    requires Run(g, w, steps)
    decreases |steps|
  {
    if steps == [] then w else End(g, Next(g, w, steps[0]), steps[1..])
  }

  /** How many connections of an address a run admits, and how many it releases. */
  function Admitted(g: Settings, w: Gate, steps: seq<Step>, ip: Address): nat
    requires Run(g, w, steps)
    decreases |steps|
  {
    if steps == [] then 0
    else
      (if Admits(g, w, steps[0]) && w.asking.ip == ip then 1 else 0)
      + Admitted(g, Next(g, w, steps[0]), steps[1..], ip)
  }

  function Released(g: Settings, w: Gate, steps: seq<Step>, ip: Address): nat
    requires Run(g, w, steps)
    decreases |steps|
  {
    if steps == [] then 0
    else
      (if steps[0].Done? && w.conns[steps[0].conn].ip == ip then 1 else 0)
      + Released(g, Next(g, w, steps[0]), steps[1..], ip)
  }

  lemma StepOpens(g: Settings, w: Gate, step: Step, ip: Address)
    requires Bounded(w) && Enabled(w, step)
    ensures |OpenOf(Next(g, w, step), ip)| + (if step.Done? && w.conns[step.conn].ip == ip then 1 else 0)
            == |OpenOf(w, ip)| + if Admits(g, w, step) && w.asking.ip == ip then 1 else 0
  {
    hide Balanced, AfterLookUp, AfterTake, AfterDone, AfterSweep, InPhase, Granted;
    match step
    case LookUp(a, seen) => LookUpKeepsCounts(g, w, a, seen);
    case Take(now) => TakeSound(g, w, now); TakeOpens(g, w, now, ip);
    case HandOver => PhaseKeepsCounts(w, w.asking.conn, Handling);
    case TurnAway => PhaseKeepsCounts(w, w.asking.conn, Releasing(Found(w, w.conns[w.asking.conn].ip)));
    case Finish(c) => PhaseKeepsCounts(w, c, Releasing(Found(w, w.conns[c].ip)));
    case Done(c) => DoneCloses(w, c, ip);
    case Sweep(now) => SweepKeepsCounts(g, w, now);
  }

  /** In every run, whatever comes between the locks: the open connections of an address are its
      admissions less its releases, and the limiter never counts more of them, nor less than none. */
  lemma {:induction false} ConnectionsConserved(g: Settings, w: Gate, steps: seq<Step>, ip: Address)
    requires Bounded(w) && Run(g, w, steps)
    ensures var w' := End(g, w, steps);
            && Bounded(w') && 0 <= Counted(w', ip) <= |OpenOf(w', ip)|
            && |OpenOf(w', ip)| == |OpenOf(w, ip)| + Admitted(g, w, steps, ip) - Released(g, w, steps, ip)
    decreases |steps|
  {
    hide Bounded, Enabled, Next, Admits;
    CountedAtMostOpen(w, ip);
    if steps != [] {
      StepBounded(g, w, steps[0]);
      StepOpens(g, w, steps[0], ip);
      ConnectionsConserved(g, Next(g, w, steps[0]), steps[1..], ip);
    }
  }

  /** In every run, when no connection of an address is open, each of its admissions has been released
      once and the limiter counts none: what was lost is not lost for good. */
  lemma QuietMeansReleased(g: Settings, steps: seq<Step>, ip: Address)
    requires Run(g, FRESH, steps) && OpenOf(End(g, FRESH, steps), ip) == {}
    ensures Admitted(g, FRESH, steps, ip) == Released(g, FRESH, steps, ip)
    ensures Counted(End(g, FRESH, steps), ip) == 0
  {
    ConnectionsConserved(g, FRESH, steps, ip);
  }

  ghost predicate AlwaysExact(g: Settings, w: Gate, steps: seq<Step>)
    requires Run(g, w, steps)
    decreases |steps|
  {
    Exact(w) && (steps == [] || AlwaysExact(g, Next(g, w, steps[0]), steps[1..]))
  }

  predicate NeverOrphans(g: Settings, w: Gate, steps: seq<Step>)
    requires Run(g, w, steps)
    decreases |steps|
  {
    steps == [] || (!Orphans(g, w, steps[0]) && NeverOrphans(g, Next(g, w, steps[0]), steps[1..]))
  }

  /** The count is exact at every moment of a run if and only if no admission of the run falls on an
      entry that has been removed from the table since Allow looked it up. */
  lemma {:induction false} AlwaysExactIff(g: Settings, w: Gate, steps: seq<Step>)
    requires Bounded(w) && Exact(w) && Run(g, w, steps)
    ensures AlwaysExact(g, w, steps) <==> NeverOrphans(g, w, steps)
    decreases |steps|
  {
    hide Bounded, Exact, Enabled, Next, Orphans;
    if steps != [] {
      var w' := Next(g, w, steps[0]);
      StepBounded(g, w, steps[0]);
      StepExactIff(g, w, steps[0]);
      if Orphans(g, w, steps[0]) {
        assert !AlwaysExact(g, w', steps[1..]);
      } else {
        AlwaysExactIff(g, w', steps[1..]);
      }
    }
  }

  // -- When that happens -------------------------------------------------------------------------

  /** A cleanup at `now` would remove the entry Allow is about to use. */
  predicate Catches(g: Settings, w: Gate, step: Step) {
    && step.Sweep? && w.asking.Looking? && w.asking.entry < |w.heap|
    && Attached(w, w.asking.ip, w.asking.entry) && Stale(g, w.heap[w.asking.entry].client, step.now)
  }

  predicate NeverCatches(g: Settings, w: Gate, steps: seq<Step>)
    requires Run(g, w, steps)
    decreases |steps|
  {
    steps == [] || (!Catches(g, w, steps[0]) && NeverCatches(g, Next(g, w, steps[0]), steps[1..]))
  }

  function Reading(start: int, step: Step): int {
    match step
    case LookUp(_, seen) => seen
    case Take(now) => now
    case Sweep(now) => now
    case _ => start
  }

  /** The clock readings of a run never go back. */
  predicate Timed(start: int, steps: seq<Step>)
    decreases |steps|
  {
    steps == [] || (start <= Reading(start, steps[0]) && Timed(Reading(start, steps[0]), steps[1..]))
  }

  lemma StepInHand(g: Settings, w: Gate, step: Step)
    requires HeapSound(w) && Enabled(w, step) && InHand(w) && !Catches(g, w, step)
    ensures InHand(Next(g, w, step)) && !Orphans(g, w, step)
  {
    hide Granted, Taken;
  }

  lemma {:induction false} UncaughtNeverOrphans(g: Settings, w: Gate, steps: seq<Step>)
    requires Bounded(w) && Run(g, w, steps) && InHand(w) && NeverCatches(g, w, steps)
    ensures NeverOrphans(g, w, steps)
    decreases |steps|
  {
    hide ConnsSound, Balanced, HeapSound, Enabled, Next, Orphans, Catches, InHand;
    if steps != [] {
      StepBounded(g, w, steps[0]);
      StepInHand(g, w, steps[0]);
      UncaughtNeverOrphans(g, Next(g, w, steps[0]), steps[1..]);
    }
  }

  /** Allow holds an entry that a cleanup at `now` has removed. */
  predicate Caught(g: Settings, w: Gate, now: int) {
    && w.asking.Looking? && w.asking.entry < |w.heap| && !InHand(w)
    && Stale(g, w.heap[w.asking.entry].client, now) && w.heap[w.asking.entry].client.tokens >= 0
  }

  /** It is granted on, if twice the window refills the bucket, and until then nothing changes it. */
  lemma StepCaught(g: Settings, w: Gate, step: Step, start: int)
    requires Configured(g) && WindowRefills(g) && Caught(g, w, start)
    requires Enabled(w, step) && start <= Reading(start, step)
    ensures Orphans(g, w, step) || Caught(g, Next(g, w, step), Reading(start, step))
  {
    hide Granted, Taken;
    if step.Take? {
      assert Granted(g, w.heap[w.asking.entry].client, step.now) by {
        CaughtIsGranted(g, w.heap[w.asking.entry].client, start, step.now);
      }
    }
  }

  lemma CaughtIsGranted(g: Settings, c: Client, start: int, now: int)
    requires Configured(g) && WindowRefills(g) && c.tokens >= 0 && Stale(g, c, start) && start <= now
    ensures Granted(g, c, now)
  {
    StaleIsRefilled(g, c, now);
  }

  lemma {:induction false} CaughtOrphans(g: Settings, w: Gate, steps: seq<Step>, start: int)
    requires Configured(g) && WindowRefills(g) && Caught(g, w, start)
    requires Run(g, w, steps) && Timed(start, steps) && InHand(End(g, w, steps))
    ensures !NeverOrphans(g, w, steps)
    decreases |steps|
  {
    hide Enabled, Next, Orphans, InHand;
    if steps != [] && !Orphans(g, w, steps[0]) {
      hide Caught;
      StepCaught(g, w, steps[0], start);
      CaughtOrphans(g, Next(g, w, steps[0]), steps[1..], Reading(start, steps[0]));
    }
  }

  lemma SweepCatches(g: Settings, w: Gate, step: Step)
    requires HeapSound(w) && Catches(g, w, step)
    ensures Enabled(w, step) && Caught(g, Next(g, w, step), step.now)
  {
  }

  lemma {:induction false} NeverOrphansIff(g: Settings, w: Gate, steps: seq<Step>, start: int)
    requires Configured(g) && WindowRefills(g) && Bounded(w) && InHand(w)
    requires Run(g, w, steps) && Timed(start, steps) && InHand(End(g, w, steps))
    ensures NeverOrphans(g, w, steps) <==> NeverCatches(g, w, steps)
    decreases |steps|
  {
    hide ConnsSound, Balanced, HeapSound, Enabled, Next, Orphans, Catches, InHand, Caught;
    if steps != [] {
      var e := steps[0];
      StepBounded(g, w, e);
      if Catches(g, w, e) {
        SweepCatches(g, w, e);
        assert Reading(start, e) == e.now by { assert e.Sweep? by { CatchesIsSweep(g, w, e); } }
        CaughtOrphans(g, Next(g, w, e), steps[1..], e.now);
      } else {
        StepInHand(g, w, e);
        NeverOrphansIff(g, Next(g, w, e), steps[1..], Reading(start, e));
      }
    }
  }

  lemma CatchesIsSweep(g: Settings, w: Gate, step: Step)
    requires Catches(g, w, step)
    ensures step.Sweep?
  {
  }

  /** From the start, if twice the window refills the bucket: the count is exact at every moment of a run
      if and only if no cleanup of the run catches an entry between the two locks of Allow. (A run that
      ends inside an Allow that was caught has not lost the count yet.) */
  lemma AlwaysExactIffNeverCatches(g: Settings, steps: seq<Step>, start: int)
    requires Configured(g) && WindowRefills(g)
    requires Run(g, FRESH, steps) && Timed(start, steps) && InHand(End(g, FRESH, steps))
    ensures AlwaysExact(g, FRESH, steps) <==> NeverCatches(g, FRESH, steps)
  {
    AlwaysExactIff(g, FRESH, steps);
    NeverOrphansIff(g, FRESH, steps, start);
  }

  /** At any setting, a run in which no cleanup catches an entry counts exactly throughout. */
  lemma NeverCatchesIsExact(g: Settings, steps: seq<Step>)
    requires Run(g, FRESH, steps) && NeverCatches(g, FRESH, steps)
    ensures AlwaysExact(g, FRESH, steps)
  {
    AlwaysExactIff(g, FRESH, steps);
    UncaughtNeverOrphans(g, FRESH, steps);
  }

  lemma RunFirst(g: Settings, w: Gate, step: Step, rest: seq<Step>)
    requires Enabled(w, step) && Run(g, Next(g, w, step), rest)
    ensures Run(g, w, [step] + rest) && End(g, w, [step] + rest) == End(g, Next(g, w, step), rest)
  {
    assert ([step] + rest)[1..] == rest;
  }

  lemma TimedFirst(start: int, step: Step, rest: seq<Step>)
    requires start <= Reading(start, step) && Timed(Reading(start, step), rest)
    ensures Timed(start, [step] + rest)
  {
    assert ([step] + rest)[1..] == rest;
  }

  /** For every setting there is a run that ends with one connection open and none counted. */
  lemma CleanupInsideAllowLosesCount(g: Settings, ip: Address) returns (steps: seq<Step>)
    requires Configured(g)
    ensures Run(g, FRESH, steps) && Timed(0, steps)
    ensures |OpenOf(End(g, FRESH, steps), ip)| == 1 && Counted(End(g, FRESH, steps), ip) == 0
  {
    var later := g.window * 2 + 1;
    var full := Client(g.burst, 0, 0);
    var w1 := Gate(map[ip := 0], [Entry(ip, full)], Looking(ip, 0), map[], 0);
    var w2 := Gate(map[], [Entry(ip, full)], Looking(ip, 0), map[], 0);
    assert Next(g, FRESH, LookUp(ip, 0)) == w1 && Next(g, w1, Sweep(later)) == w2;
    RefillKeeps(g, full, later);
    var w3 := Gate(map[], [Entry(ip, Taken(g, full, later))], Deciding(0), map[0 := Conn(ip, 0, Asked)], 1);
    assert Next(g, w2, Take(later)) == w3;
    RunFirst(g, w2, Take(later), []);
    RunFirst(g, w1, Sweep(later), [Take(later)] + []);
    RunFirst(g, FRESH, LookUp(ip, 0), [Sweep(later)] + ([Take(later)] + []));
    steps := [LookUp(ip, 0)] + ([Sweep(later)] + ([Take(later)] + []));
    assert OpenOf(w3, ip) == {0};
    TimedFirst(later, Take(later), []);
    TimedFirst(0, Sweep(later), [Take(later)] + []);
    TimedFirst(0, LookUp(ip, 0), [Sweep(later)] + ([Take(later)] + []));
  }
}

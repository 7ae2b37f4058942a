/** The gateway's admission path around an enabled rate limiter. One accept loop asks the limiter and
    the connection tracker; handlers run concurrently and release on every way out; the limiter's
    cleanup runs at any time. Allow and Release are two steps each, because both give up the table's
    lock before they take the entry's: in between, a cleanup can remove the entry from the table. */
module Admission {
  import opened Common
  import opened RateLimiter

  type Ref = nat
  type ConnId = nat

  /** A ClientLimiter in memory, and the address it was made for. */
  datatype Entry = Entry(owner: Address, client: Client)

  /** An admitted connection that has not been released. home: the entry it was admitted on.
      Releasing: Release has looked the address up and holds the entry it found, if any. */
  datatype Conn = Conn(ip: Address, home: Ref, phase: Phase)

  datatype Phase = Asked | Handling | Releasing(hold: Option<Ref>)

  /** Where the accept loop is. Looking: Allow holds the entry it found or made. Deciding: Allow said yes. */
  datatype Asking = Idle | Looking(ip: Address, entry: Ref) | Deciding(conn: ConnId)

  datatype Gate = Gate(table: map<Address, Ref>, heap: seq<Entry>, asking: Asking, conns: map<ConnId, Conn>,
                       ids: nat)

  datatype Step =
    | LookUp(ip: Address, seen: int)   // Allow, under the table's lock
    | Take(now: int)                   // Allow, under the entry's lock
    | HandOver                         // CanAccept said yes: a handler starts
    | TurnAway                         // CanAccept said no: Release, under the table's lock
    | Finish(conn: ConnId)             // a handler returns, by whichever path: Release, under the table's lock
    | Done(conn: ConnId)               // Release, under the entry's lock
    | Sweep(now: int)                  // the limiter's periodic cleanup

  const FRESH := Gate(map[], [], Idle, map[], 0)

  // -- Steps -------------------------------------------------------------------------------------

  function Found(w: Gate, ip: Address): Option<Ref> {
    if ip in w.table then Some(w.table[ip]) else None
  }

  predicate Enabled(w: Gate, step: Step) {
    match step
    case LookUp(_, _) => w.asking.Idle?
    case Take(_) => w.asking.Looking? && w.asking.entry < |w.heap|
    case HandOver => w.asking.Deciding? && w.asking.conn in w.conns
    case TurnAway => w.asking.Deciding? && w.asking.conn in w.conns
    case Finish(c) => c in w.conns && w.conns[c].phase == Handling
    case Done(c) => c in w.conns && w.conns[c].phase.Releasing?
    case Sweep(_) => true
  }

  function AfterLookUp(g: Settings, w: Gate, ip: Address, seen: int): Gate {
    if ip in w.table then w.(asking := Looking(ip, w.table[ip]))
    else
      w.(heap := w.heap + [Entry(ip, Client(g.burst, seen, 0))], table := w.table[ip := |w.heap|],
         asking := Looking(ip, |w.heap|))
  }

  function AfterTake(g: Settings, w: Gate, now: int): Gate
    requires w.asking.Looking? && w.asking.entry < |w.heap|
  {
    var ip, r := w.asking.ip, w.asking.entry;
    var e := w.heap[r];
    var heap := w.heap[r := e.(client := Taken(g, e.client, now))];
    if Granted(g, e.client, now) then
      w.(heap := heap, asking := Deciding(w.ids), conns := w.conns[w.ids := Conn(ip, r, Asked)], ids := w.ids + 1)
    else w.(heap := heap, asking := Idle)
  }

  function InPhase(w: Gate, c: ConnId, phase: Phase): Gate
    requires c in w.conns
  {
    w.(conns := w.conns[c := w.conns[c].(phase := phase)])
  }

  function Decremented(c: Client): Client {
    if c.connections > 0 then c.(connections := c.connections - 1) else c
  }

  function AfterDone(w: Gate, c: ConnId): Gate
    requires c in w.conns && w.conns[c].phase.Releasing?
  {
    var hold := w.conns[c].phase.hold;
    var w' := w.(conns := w.conns - {c});
    if hold.Some? && hold.value < |w.heap| then
      w'.(heap := w.heap[hold.value := w.heap[hold.value].(client := Decremented(w.heap[hold.value].client))])
    else w'
  }

  function AfterSweep(g: Settings, w: Gate, now: int): Gate {
    w.(table := map ip | ip in w.table && !(w.table[ip] < |w.heap| && Stale(g, w.heap[w.table[ip]].client, now))
                  :: w.table[ip])
  }

  function Next(g: Settings, w: Gate, step: Step): Gate
    requires Enabled(w, step)
  {
    match step
    case LookUp(ip, seen) => AfterLookUp(g, w, ip, seen)
    case Take(now) => AfterTake(g, w, now)
    case HandOver => InPhase(w, w.asking.conn, Handling).(asking := Idle)
    case TurnAway =>
      InPhase(w, w.asking.conn, Releasing(Found(w, w.conns[w.asking.conn].ip))).(asking := Idle)
    case Finish(c) => InPhase(w, c, Releasing(Found(w, w.conns[c].ip)))
    case Done(c) => AfterDone(w, c)
    case Sweep(now) => AfterSweep(g, w, now)
  }

  // -- What is open and what is counted ----------------------------------------------------------

  /** The connections of an address that have been admitted and not released. */
  function OpenOf(w: Gate, ip: Address): set<ConnId> {
    ConnsOf(w.conns, ip)
  }

  function ConnsOf(conns: map<ConnId, Conn>, ip: Address): set<ConnId> {
    set c | c in conns && conns[c].ip == ip
  }

  /** Those that were admitted on one entry. */
  function HomeOf(w: Gate, r: Ref): set<ConnId> {
    ConnsAt(w.conns, r)
  }

  function ConnsAt(conns: map<ConnId, Conn>, r: Ref): set<ConnId> {
    set c | c in conns && conns[c].home == r
  }

  /** The limiter's connection count of an address; a forgotten client counts none. */
  function Counted(w: Gate, ip: Address): int {
    if ip in w.table && w.table[ip] < |w.heap| then w.heap[w.table[ip]].client.connections else 0
  }

  predicate Attached(w: Gate, ip: Address, r: Ref) {
    ip in w.table && w.table[ip] == r
  }

  /** The accept loop is not about to use an entry that has been removed. */
  predicate InHand(w: Gate) {
    w.asking.Looking? ==> Attached(w, w.asking.ip, w.asking.entry)
  }

  ghost predicate TableSound(w: Gate) {
    forall ip | ip in w.table :: w.table[ip] < |w.heap|
  }

  ghost predicate HeapSound(w: Gate) {
    && TableSound(w)
    && (forall ip | ip in w.table :: w.heap[w.table[ip]].owner == ip)
    && (forall r | 0 <= r < |w.heap| :: w.heap[r].client.connections >= 0 && w.heap[r].client.tokens >= 0)
    && (w.asking.Looking? ==> w.asking.entry < |w.heap| && w.heap[w.asking.entry].owner == w.asking.ip)
  }

  /** A connection releases on the entry it was admitted on, as long as that is in the table. */
  predicate ConnSound(w: Gate, c: ConnId)
    requires c in w.conns
  {
    var x := w.conns[c];
    && c < w.ids && x.home < |w.heap| && w.heap[x.home].owner == x.ip
    && (x.phase.Releasing? && Attached(w, x.ip, x.home) ==> x.phase.hold == Some(x.home))
  }

  ghost predicate ConnsSound(w: Gate) {
    && (forall c | c in w.conns :: ConnSound(w, c))
    && (w.asking.Deciding? ==> w.asking.conn in w.conns && w.conns[w.asking.conn].phase == Asked)
  }

  /** No entry in the table counts more than the connections admitted on it. */
  ghost predicate Balanced(w: Gate) {
    forall ip | ip in w.table :: Counted(w, ip) <= |HomeOf(w, w.table[ip])|
  }

  ghost predicate Bounded(w: Gate) {
    HeapSound(w) && ConnsSound(w) && Balanced(w)
  }

  lemma {:induction false} SubsetSize(a: set<ConnId>, b: set<ConnId>)
    requires a <= b
    ensures |a| <= |b| && (|a| == |b| ==> a == b)
  {
    if a != {} {
      var x :| x in a;
      SubsetSize(a - {x}, b - {x});
    }
  }

  /** So the limiter never counts more than the open connections, and if it counts them all, they were
      all admitted on the entry in the table. */
  lemma CountedAtMostOpen(w: Gate, ip: Address)
    requires Bounded(w)
    ensures 0 <= Counted(w, ip) <= |OpenOf(w, ip)|
    ensures Counted(w, ip) == |OpenOf(w, ip)| ==> forall c | c in OpenOf(w, ip) :: Attached(w, ip, w.conns[c].home)
  {
    if ip in w.table {
      forall c | c in HomeOf(w, w.table[ip])
        ensures c in OpenOf(w, ip)
      {
        assert ConnSound(w, c);
      }
      SubsetSize(HomeOf(w, w.table[ip]), OpenOf(w, ip));
    }
  }

  // -- Every step keeps that ---------------------------------------------------------------------

  /** What a look-up, a change of phase or a cleanup leaves alone. */
  ghost predicate CountsKept(w: Gate, w': Gate) {
    && (forall a :: OpenOf(w', a) == OpenOf(w, a)) && forall a :: Counted(w', a) == Counted(w, a)
  }

  lemma LookUpSound(g: Settings, w: Gate, ip: Address, seen: int)
    requires HeapSound(w) && ConnsSound(w) && w.asking.Idle?
    ensures HeapSound(AfterLookUp(g, w, ip, seen)) && ConnsSound(AfterLookUp(g, w, ip, seen))
  {
    var w' := AfterLookUp(g, w, ip, seen);
    forall c | c in w'.conns
      ensures ConnSound(w', c)
    {
      assert ConnSound(w, c);
    }
  }

  lemma LookUpKeepsCounts(g: Settings, w: Gate, ip: Address, seen: int)
    requires HeapSound(w) && Balanced(w) && w.asking.Idle?
    ensures CountsKept(w, AfterLookUp(g, w, ip, seen)) && Balanced(AfterLookUp(g, w, ip, seen))
  {
    var w' := AfterLookUp(g, w, ip, seen);
    forall a | a in w'.table
      ensures Counted(w', a) <= |HomeOf(w', w'.table[a])|
    {
      assert HomeOf(w', w'.table[a]) == HomeOf(w, w'.table[a]);
    }
  }

  lemma TakeSound(g: Settings, w: Gate, now: int)
    requires HeapSound(w) && ConnsSound(w) && w.asking.Looking?
    ensures HeapSound(AfterTake(g, w, now)) && ConnsSound(AfterTake(g, w, now)) && w.ids !in w.conns
  {
    var w' := AfterTake(g, w, now);
    forall c | c in w.conns
      ensures ConnSound(w', c) && c < w.ids
    {
      assert ConnSound(w, c);
    }
  }

  lemma OneMoreAt(conns: map<ConnId, Conn>, c: ConnId, x: Conn, r: Ref)
    requires c !in conns
    ensures |ConnsAt(conns[c := x], r)| == |ConnsAt(conns, r)| + if x.home == r then 1 else 0
  {
    var more := conns[c := x];
    if x.home == r {
      assert ConnsAt(more, r) == ConnsAt(conns, r) + {c};
    } else {
      assert ConnsAt(more, r) == ConnsAt(conns, r);
    }
  }

  lemma TakeBalanced(g: Settings, w: Gate, now: int)
    requires TableSound(w) && Balanced(w) && w.ids !in w.conns
    requires w.asking.Looking? && w.asking.entry < |w.heap|
    ensures Balanced(AfterTake(g, w, now))
  {
    hide Granted, Taken, ConnsAt;
    var w' := AfterTake(g, w, now);
    TakenCounts(g, w.heap[w.asking.entry].client, now);
    forall a | a in w'.table
      ensures Counted(w', a) <= |HomeOf(w', w'.table[a])|
    {
      assert Counted(w, a) <= |HomeOf(w, w.table[a])|;
      OneMoreAt(w.conns, w.ids, Conn(w.asking.ip, w.asking.entry, Asked), w.table[a]);
    }
  }

  lemma TableIsSound(w: Gate)
    requires HeapSound(w)
    ensures TableSound(w) && (w.asking.Looking? ==> w.asking.entry < |w.heap|)
  {
  }

  lemma TakenCounts(g: Settings, c: Client, now: int)
    ensures Taken(g, c, now).connections == c.connections + if Granted(g, c, now) then 1 else 0
  {
  }

  lemma PhaseSound(w: Gate, c: ConnId, phase: Phase)
    requires HeapSound(w) && ConnsSound(w) && c in w.conns
    requires phase == Handling || phase == Releasing(Found(w, w.conns[c].ip))
    requires w.conns[c].phase == Asked ==> w.asking == Deciding(c)
    ensures var w' := InPhase(w, c, phase);
            var w'' := if w.asking == Deciding(c) then w'.(asking := Idle) else w';
            HeapSound(w'') && ConnsSound(w'')
  {
    var w' := InPhase(w, c, phase);
    forall x | x in w'.conns
      ensures ConnSound(w', x)
    {
      assert ConnSound(w, x);
    }
  }

  lemma PhaseKeepsCounts(w: Gate, c: ConnId, phase: Phase)
    requires Balanced(w) && c in w.conns
    ensures CountsKept(w, InPhase(w, c, phase)) && Balanced(InPhase(w, c, phase))
    ensures var w' := InPhase(w, c, phase).(asking := Idle); CountsKept(w, w') && Balanced(w')
  {
    var w' := InPhase(w, c, phase);
    forall a | a in w'.table
      ensures HomeOf(w', w'.table[a]) == HomeOf(w, w'.table[a])
      ensures HomeOf(w'.(asking := Idle), w'.table[a]) == HomeOf(w, w'.table[a])
    {
    }
  }

  lemma DoneSound(w: Gate, c: ConnId)
    requires HeapSound(w) && ConnsSound(w) && c in w.conns && w.conns[c].phase.Releasing?
    ensures HeapSound(AfterDone(w, c)) && ConnsSound(AfterDone(w, c))
  {
    var w' := AfterDone(w, c);
    forall x | x in w'.conns
      ensures ConnSound(w', x)
    {
      assert ConnSound(w, x);
    }
  }

  lemma DoneBalanced(w: Gate, c: ConnId)
    requires HeapSound(w) && Balanced(w) && c in w.conns && w.conns[c].phase.Releasing? && ConnSound(w, c)
    ensures Balanced(AfterDone(w, c))
  {
    var w' := AfterDone(w, c);
    forall a | a in w'.table
      ensures Counted(w', a) <= |HomeOf(w', w'.table[a])|
    {
      assert Counted(w, a) <= |HomeOf(w, w'.table[a])|;
      assert HomeOf(w', w'.table[a]) == HomeOf(w, w'.table[a]) - {c};
    }
  }

  lemma SweepSound(g: Settings, w: Gate, now: int)
    requires HeapSound(w) && ConnsSound(w)
    ensures HeapSound(AfterSweep(g, w, now)) && ConnsSound(AfterSweep(g, w, now))
  {
    var w' := AfterSweep(g, w, now);
    forall x | x in w'.conns
      ensures ConnSound(w', x)
    {
      assert ConnSound(w, x);
    }
  }

  lemma SweepKeepsCounts(g: Settings, w: Gate, now: int)
    requires Balanced(w)
    ensures CountsKept(w, AfterSweep(g, w, now)) && Balanced(AfterSweep(g, w, now))
  {
    var w' := AfterSweep(g, w, now);
    forall a | a in w'.table
      ensures HomeOf(w', w'.table[a]) == HomeOf(w, w'.table[a])
    {
    }
  }

  lemma StepBounded(g: Settings, w: Gate, step: Step)
    requires Bounded(w) && Enabled(w, step)
    ensures Bounded(Next(g, w, step))
  {
    hide HeapSound, Balanced, AfterLookUp, AfterTake, AfterDone, AfterSweep, InPhase;
    match step
    case LookUp(ip, seen) => LookUpSound(g, w, ip, seen); LookUpKeepsCounts(g, w, ip, seen);
    case Take(now) => TableIsSound(w); TakeSound(g, w, now); TakeBalanced(g, w, now);
    case HandOver =>
      PhaseSound(w, w.asking.conn, Handling);
      PhaseKeepsCounts(w, w.asking.conn, Handling);
    case TurnAway =>
      var phase := Releasing(Found(w, w.conns[w.asking.conn].ip));
      PhaseSound(w, w.asking.conn, phase);
      PhaseKeepsCounts(w, w.asking.conn, phase);
    case Finish(c) =>
      var phase := Releasing(Found(w, w.conns[c].ip));
      PhaseSound(w, c, phase);
      PhaseKeepsCounts(w, c, phase);
    case Done(c) => DoneSound(w, c); DoneBalanced(w, c);
    case Sweep(now) => SweepSound(g, w, now); SweepKeepsCounts(g, w, now);
  }

  // -- With nothing in between, the steps are the limiter's calls --------------------------------

  /** The table as one map. */
  ghost function View(w: Gate): Clients
    requires TableSound(w)
  {
    map ip | ip in w.table :: w.heap[w.table[ip]].client
  }

  lemma LookUpView(g: Settings, w: Gate, ip: Address, seen: int)
    requires HeapSound(w)
    ensures var w' := AfterLookUp(g, w, ip, seen);
            && HeapSound(w') && TableSound(w') && w'.ids == w.ids
            && w'.asking.Looking? && w'.asking.ip == ip && InHand(w') && w'.asking.entry < |w'.heap|
            && View(w') == View(w)[ip := Looked(g, View(w), ip, seen)]
  {
  }

  lemma TakeView(g: Settings, w: Gate, now: int)
    requires HeapSound(w) && w.asking.Looking? && InHand(w)
    ensures var w', c := AfterTake(g, w, now), w.heap[w.asking.entry].client;
            && HeapSound(w') && TableSound(w') && View(w') == View(w)[w.asking.ip := Taken(g, c, now)]
            && w'.asking == if Granted(g, c, now) then Deciding(w.ids) else Idle
  {
  }

  lemma TwoStepsAreAllow(g: Settings, w: Gate, ip: Address, seen: int, now: int)
    requires g.enabled && HeapSound(w) && TableSound(w)
    ensures var w' := AfterTake(g, AfterLookUp(g, w, ip, seen), now);
            && HeapSound(w') && View(w') == AfterAllow(g, View(w), ip, seen, now)
            && w'.asking == if Allowed(g, View(w), ip, seen, now) then Deciding(w.ids) else Idle
  {
    hide Granted, Taken, HeapSound, AfterLookUp, AfterTake;
    var w1 := AfterLookUp(g, w, ip, seen);
    LookUpView(g, w, ip, seen);
    TakeView(g, w1, now);
    assert View(w1)[ip] == Looked(g, View(w), ip, seen);
  }

  lemma TwoStepsAreRelease(g: Settings, w: Gate, c: ConnId)
    requires g.enabled && HeapSound(w) && c in w.conns
    ensures var w' := AfterDone(InPhase(w, c, Releasing(Found(w, w.conns[c].ip))), c);
            HeapSound(w') && View(w') == AfterRelease(g, View(w), w.conns[c].ip)
  {
  }

  lemma SweepIsCleanup(g: Settings, w: Gate, now: int)
    requires HeapSound(w)
    ensures HeapSound(AfterSweep(g, w, now)) && View(AfterSweep(g, w, now)) == AfterCleanup(g, View(w), now)
  {
  }
}

/** The gateway's operations (server.go and connection_tracker.go). The ghost fields record the run so
    far; Valid() says that it is a run of the step machine of module Gateway. Between any two actions
    `Interfere` lets the other goroutines take any number of steps. */
module GatewayServer {
  import opened Common
  import opened Gateway

  /** What no step undoes: sessions stay known, what a handler has read stays read, what is closed
      stays closed. */
  predicate SessionProgress(x: Session, x': Session) {
    && (x.joined ==> x'.joined)
    && (x.read.Some? ==> x'.read == x.read)
    && (!x.active ==> !x'.active)
    && (!x.clientOpen ==> !x'.clientOpen)
    && (!Live(x) ==> !Live(x'))
    && (x.joined && !x.tracked ==> !x'.tracked)
    && (x.attached ==> x'.attached)
    && (x.conn.Some? ==> x'.conn.Some? && x'.conn.value.address == x.conn.value.address)
  }

  ghost predicate Progress(w: World, w': World) {
    && w.sessions.Keys <= w'.sessions.Keys
    && forall id | id in w.sessions :: SessionProgress(w.sessions[id], w'.sessions[id])
  }

  lemma StepProgress(w: World, step: Step, w': World)
    requires Inv(w) && Next(w, step, w')
    ensures Progress(w, w')
  {
    forall id | id in w.sessions
      ensures SessionProgress(w.sessions[id], w'.sessions[id])
    {
      assert SessionSound(w.sessions[id]);
    }
  }

  lemma ProgressTransitive(w: World, w': World, w'': World)
    requires Progress(w, w') && Progress(w', w'')
    ensures Progress(w, w'')
  {
    forall id | id in w.sessions
      ensures SessionProgress(w.sessions[id], w''.sessions[id])
    {
      assert id in w'.sessions;
      assert SessionProgress(w.sessions[id], w'.sessions[id]) && SessionProgress(w'.sessions[id], w''.sessions[id]);
    }
  }

  lemma ProgressOf(w: World, w': World, w'': World, id: Id)
    requires Progress(w, w') && Progress(w', w'') && id in w'.sessions
    ensures Progress(w, w'') && id in w''.sessions && SessionProgress(w'.sessions[id], w''.sessions[id])
  {
    ProgressTransitive(w, w', w'');
  }

  lemma ProgressReflexive(w: World)
    ensures Progress(w, w)
  {
  }

  /** Nobody else moves a handler on; the others may only close what it has opened. */
  predicate HandlerUndisturbed(x: Session, x': Session) {
    && x'.joined == x.joined && x'.read == x.read && x'.attached == x.attached && x'.buffer == x.buffer
    && x'.conn.Some? == x.conn.Some?
  }

  /** A step another goroutine may take while the handler of `mine` runs, or while SetUpstreamAddress
      holds the write lock. */
  predicate ByOthers(step: Step, mine: Option<Id>, writing: bool) {
    && (writing ==> !OfWriter(step))
    && (mine.Some? && OfHandler(step) ==> step.id != mine.value)
  }

  /** What the caller can rely on across steps of others. */
  predicate Undisturbed(w: World, w': World, mine: Option<Id>, writing: bool) {
    && (writing ==> w'.writer == w.writer && w'.upstream == w.upstream)
    && (mine.Some? && mine.value in w.sessions ==>
          mine.value in w'.sessions && HandlerUndisturbed(w.sessions[mine.value], w'.sessions[mine.value]))
  }

  lemma OthersUndisturbed(w: World, step: Step, w': World, mine: Option<Id>, writing: bool)
    requires Next(w, step, w') && ByOthers(step, mine, writing)
    ensures Undisturbed(w, w', mine, writing)
  {
  }

  /** Nothing but this session is different. */
  predicate OnlyChanged(w: World, w': World, id: Id) {
    id in w'.sessions && w' == w.(sessions := w.sessions[id := w'.sessions[id]])
  }

  predicate IsIdle(lastActivity: map<Id, int>, id: Id, now: int, idleTimeout: int) {
    id in lastActivity && now - lastActivity[id] > idleTimeout
  }

  function Sum(chunks: seq<nat>): nat {
    if chunks == [] then 0 else Sum(chunks[..|chunks| - 1]) + chunks[|chunks| - 1]
  }

  /** The loop of a cleanup that started in w0: `rest` is still to be looked at. */
  ghost predicate Cleaning(w0: World, w: World, rest: set<Id>, removed: set<Id>, idle: set<Id>, alone: bool) {
    && rest <= Tracked(w0) && idle <= Tracked(w0) && w0.sessions.Keys <= w.sessions.Keys
    && (forall id | id in Tracked(w0) :: w0.sessions[id].joined && w.sessions[id].joined)
    && (forall id | id in idle - rest :: !Live(w.sessions[id]))
    && removed <= idle - rest && (forall id | id in removed :: !w.sessions[id].tracked)
    && (alone ==>
          && removed == (set id | id in idle - rest && w0.sessions[id].active)
          && forall id | id in w0.sessions && id !in removed :: w.sessions[id] == w0.sessions[id])
  }

  lemma CleaningStarts(w0: World, idle: set<Id>)
    requires idle <= Tracked(w0) && forall id | id in Tracked(w0) :: w0.sessions[id].joined
    ensures Cleaning(w0, w0, Tracked(w0), {}, idle, true)
  {
  }

  lemma CleaningFacts(w0: World, w: World, rest: set<Id>, removed: set<Id>, idle: set<Id>, alone: bool, id: Id)
    requires Cleaning(w0, w, rest, removed, idle, alone) && id in rest
    ensures id in w.sessions && w.sessions[id].joined
  {
  }

  lemma CleaningEnds(w0: World, w: World, removed: set<Id>, idle: set<Id>, alone: bool)
    requires Cleaning(w0, w, {}, removed, idle, alone)
    ensures forall id | id in idle :: id in w.sessions && !Live(w.sessions[id])
    ensures removed <= idle && idle <= Tracked(w0) && forall id | id in removed :: !w.sessions[id].tracked
    ensures alone ==>
              && removed == (set id | id in idle && w0.sessions[id].active)
              && forall id | id in w0.sessions && id !in removed ::
                   id in w.sessions && w.sessions[id] == w0.sessions[id]
  {
  }

  lemma CleaningStep(w0: World, w: World, w': World, rest: set<Id>, removed: set<Id>, idle: set<Id>, id: Id,
                     gone: bool, alone: bool, aloneNow: bool)
    requires Cleaning(w0, w, rest, removed, idle, alone) && id in rest && Progress(w, w') && id in w'.sessions
    requires id in idle ==> !Live(w'.sessions[id])
    requires gone ==> id in idle && !w'.sessions[id].tracked
    requires aloneNow ==>
               && id in w.sessions && (gone <==> id in idle && w.sessions[id].active)
               && if gone then OnlyChanged(w, w', id) else w' == w
    ensures Cleaning(w0, w', rest - {id}, if gone then removed + {id} else removed, idle, alone && aloneNow)
  {
    forall x | x in w.sessions
      ensures x in w'.sessions && SessionProgress(w.sessions[x], w'.sessions[x])
    {
    }
  }

  class Server {
    var w: World
    ghost var worlds: seq<World>
    ghost var steps: seq<Step>
    ghost var others: nat   // steps the other goroutines have taken so far

    ghost predicate Valid()
      reads `w, `worlds, `steps
    {
      Run(worlds, steps) && worlds[|steps|] == w && Inv(w)
    }

    constructor ()
      ensures Valid() && Init(w)
    {
      w := World("", Idle, map[]);
      worlds := [World("", Idle, map[])];
      steps := [];
      others := 0;
    }

    method Take(step: Step)
      requires Valid() && Enabled(w, step)
      modifies this
      ensures Valid() && w == Apply(old(w), step) && Progress(old(w), w) && others == old(others)
    {
      ghost var before := w;
      w := Apply(w, step);
      worlds := worlds + [w];
      steps := steps + [step];
      assert Next(before, step, w);
      hide Inv, Enabled, Apply, Progress;
      StepKeeps(before, step, w);
      StepProgress(before, step, w);
    }

    /** A step of its handler, or of a closer, on one session. */
    method Act(id: Id, step: Step)
      requires Valid() && id in w.sessions && (OfHandler(step) || OfCloser(step)) && step.id == id
      requires HandlerEnabled(w, step, w.sessions[id]) || CloserEnabled(step, w.sessions[id])
      modifies this
      ensures Valid() && Progress(old(w), w) && others == old(others)
      ensures w == old(w).(sessions := old(w).sessions[id := Changed(old(w).upstream, step, old(w).sessions[id])])
    {
      hide Valid, Progress, Changed;
      Take(step);
    }

    /** Any number of steps of the other goroutines. */
    method Interfere(mine: Option<Id>, writing: bool)
      requires Valid()
      modifies this
      ensures Valid() && Progress(old(w), w) && Undisturbed(old(w), w, mine, writing)
      ensures others >= old(others) && (others == old(others) ==> w == old(w))
    {
      hide Valid, Apply, Enabled, Inv;
      var n: nat := *;
      while n > 0
        invariant Valid() && Progress(old(w), w) && Undisturbed(old(w), w, mine, writing)
        invariant others >= old(others) && (others == old(others) ==> w == old(w))
      {
        var step: Step := *;
        if Enabled(w, step) && ByOthers(step, mine, writing) {
          ghost var before := w;
          Take(step);
          OthersUndisturbed(before, step, w, mine, writing);
          ProgressTransitive(old(w), before, w);
          others := others + 1;
        }
        n := n - 1;
      }
    }

    // -- connection_tracker.go ---------------------------------------------------------------------

    /** ProxySession.Close. If another goroutine is inside it, this one waits for the mutex while that
        one finishes. */
    method Close(id: Id, writing: bool)
      requires Valid() && id in w.sessions && w.sessions[id].joined
      modifies this
      ensures Valid() && Progress(old(w), w) && Undisturbed(old(w), w, None, writing)
      ensures id in w.sessions && !Live(w.sessions[id])
      ensures others >= old(others) && (others == old(others) ==> OnlyChanged(old(w), w, id))
      ensures others == old(others) ==> w.sessions[id].tracked == old(w).sessions[id].tracked
    {
      hide Valid, Progress;
      ghost var w0 := w;
      ProgressReflexive(w);
      Sound(id);
      if w.sessions[id].active {
        Act(id, CloseBegin(id));
      }
      ghost var w1 := w;
      FinishClose(id, writing);
      ProgressOf(w0, w1, w, id);
    }

    /** The rest of Close, once the session is not active. */
    method FinishClose(id: Id, writing: bool)
      requires Valid() && id in w.sessions && !w.sessions[id].active
      modifies this
      ensures Valid() && Progress(old(w), w) && Undisturbed(old(w), w, None, writing)
      ensures id in w.sessions && !Live(w.sessions[id])
      ensures others >= old(others) && (others == old(others) ==> OnlyChanged(old(w), w, id))
      ensures others == old(others) ==> w.sessions[id].tracked == old(w).sessions[id].tracked
    {
      hide Valid, Progress;
      ghost var w0 := w;
      ProgressReflexive(w);
      Interfere(None, writing);
      ProgressOf(w0, w0, w, id);
      ghost var w1 := w;
      if w.sessions[id].closing && w.sessions[id].clientOpen {
        Act(id, CloseClient(id));
        ProgressOf(w0, w1, w, id);
      }
      ghost var w2 := w;
      Interfere(None, writing);
      ProgressOf(w0, w2, w, id);
      ghost var w3 := w;
      if w.sessions[id].closing {
        Act(id, CloseBackend(id));
        ProgressOf(w0, w3, w, id);
      }
    }

    lemma Sound(id: Id)
      requires Valid() && id in w.sessions
      ensures SessionSound(w.sessions[id]) && UpToDate(w, id, w.sessions[id])
    {
    }

    /** Waits until nobody is inside the session's Close. */
    method AwaitMutex(id: Id)
      requires Valid() && id in w.sessions
      modifies this
      ensures Valid() && Progress(old(w), w) && Undisturbed(old(w), w, Some(id), true)
      ensures !w.sessions[id].closing
      ensures others >= old(others) && (others == old(others) ==> w == old(w))
    {
      hide Valid;
      if w.sessions[id].closing {
        if w.sessions[id].clientOpen {
          Act(id, CloseClient(id));
        }
        Act(id, CloseBackend(id));
        others := others + 1;
      }
    }

    /** Removes a session from the tracker after closing it. */
    method Untrack(id: Id)
      requires Valid() && id in w.sessions && w.sessions[id].joined
      modifies this
      ensures Valid() && Progress(old(w), w)
      ensures !w.sessions[id].tracked && !Live(w.sessions[id])
      ensures others >= old(others) && (others == old(others) ==> OnlyChanged(old(w), w, id))
    {
      hide Valid, Progress;
      ghost var w0 := w;
      ProgressReflexive(w);
      Sound(id);
      if w.sessions[id].tracked {
        Close(id, false);
        ghost var w1 := w;
        Interfere(None, false);
        ProgressOf(w0, w1, w, id);
        ghost var w2 := w;
        if w.sessions[id].tracked {
          Act(id, Remove(id));
          ProgressOf(w0, w2, w, id);
        }
      }
    }

    /** Closes and removes the tracked sessions that are active and idle, and counts them. What the
        sessions answer for their last activity is given. */
    method CleanupIdle(lastActivity: map<Id, int>, now: int, idleTimeout: int)
      returns (cleaned: nat, ghost removed: set<Id>)
      requires Valid()
      modifies this
      ensures Valid() && Progress(old(w), w)
      ensures forall id | id in Tracked(old(w)) && IsIdle(lastActivity, id, now, idleTimeout) :: !Live(w.sessions[id])
      ensures cleaned == |removed| && removed <= Tracked(old(w))
      ensures forall id | id in removed ::
                IsIdle(lastActivity, id, now, idleTimeout) && !w.sessions[id].tracked && !Live(w.sessions[id])
      ensures others == old(others) ==>
                && removed == (set id | id in Tracked(old(w)) && old(w).sessions[id].active
                                        && IsIdle(lastActivity, id, now, idleTimeout))
                && forall id | id in old(w).sessions && id !in removed :: w.sessions[id] == old(w).sessions[id]
    {
      hide Valid, Progress, Cleaning;
      ghost var w0 := w;
      var rest := Tracked(w);
      ghost var idle := set id | id in Tracked(w) && IsIdle(lastActivity, id, now, idleTimeout);
      cleaned, removed := 0, {};
      JoinedWhenTracked();
      ProgressReflexive(w0);
      assert Cleaning(w0, w, rest, removed, idle, true) by { CleaningStarts(w0, idle); }
      while rest != {}
        invariant Valid() && Progress(w0, w) && others >= old(others) && cleaned == |removed| && removed !! rest
        invariant Cleaning(w0, w, rest, removed, idle, others == old(others))
        decreases rest
      {
        var id :| id in rest;
        ghost var w1, others1 := w, others;
        CleaningFacts(w0, w, rest, removed, idle, others == old(others), id);
        var gone := RemoveIfIdle(id, IsIdle(lastActivity, id, now, idleTimeout));
        CleaningStep(w0, w1, w, rest, removed, idle, id, gone, others1 == old(others), others == others1);
        ProgressTransitive(w0, w1, w);
        if gone {
          cleaned, removed := cleaned + 1, removed + {id};
        }
        rest := rest - {id};
      }
      CleaningEnds(w0, w, removed, idle, others == old(others));
    }

    method RemoveIfIdle(id: Id, idle: bool) returns (gone: bool)
      requires Valid() && id in w.sessions && w.sessions[id].joined
      modifies this
      ensures Valid() && Progress(old(w), w) && id in w.sessions && (idle ==> !Live(w.sessions[id]))
      ensures gone ==> idle && !w.sessions[id].tracked
      ensures others >= old(others)
      ensures others == old(others) ==>
                && (gone <==> idle && old(w).sessions[id].active)
                && if gone then OnlyChanged(old(w), w, id) else w == old(w)
    {
      hide Valid, Progress;
      ghost var w0 := w;
      Interfere(None, false);
      ProgressReflexive(w0);
      ProgressOf(w0, w0, w, id);
      ghost var w1 := w;
      AwaitMutex(id);   // IsActive
      ProgressOf(w0, w1, w, id);
      ghost var w2 := w;
      gone := w.sessions[id].active && idle;
      if gone {
        Untrack(id);
        ProgressOf(w0, w2, w, id);
      }
    }

    lemma JoinedWhenTracked()
      requires Valid()
      ensures forall id | id in Tracked(w) :: id in w.sessions && w.sessions[id].joined
      ensures forall id | id in w.sessions && w.sessions[id].read.Some? :: w.sessions[id].joined
      ensures forall id | id in w.sessions && w.sessions[id].joined && Live(w.sessions[id]) :: id in Tracked(w)
    {
      forall id | id in w.sessions
        ensures SessionSound(w.sessions[id])
      {
        Sound(id);
      }
    }

    // -- server.go ---------------------------------------------------------------------------------

    /** Closes every session that is tracked when it is called, by itself or (`writing`) inside
        SetUpstreamAddress. */
    method DisconnectAll(writing: bool)
      requires Valid() && (writing ==> w.writer.Locked?)
      modifies this
      ensures Valid() && Progress(old(w), w)
      ensures writing ==> w.upstream == old(w.upstream) && w.writer == Closing(old(w.writer.address), {})
      ensures forall id | id in Tracked(old(w)) :: !Live(w.sessions[id])
    {
      hide Valid, Progress, Live, Changed;
      ghost var w0 := w;
      ProgressReflexive(w);
      JoinedWhenTracked();
      var none := Tracked(w) == {};
      if writing {
        Take(Count);
      }
      if none {
        return;
      }
      ghost var w1 := w;
      Interfere(None, writing);
      ProgressTransitive(w0, w1, w);
      JoinedWhenTracked();
      var copied := Tracked(w);
      ghost var w2 := w;
      if writing {
        Take(Snapshot);
        ProgressTransitive(w0, w2, w);
      }
      ghost var w3 := w;
      CloseEach(copied, writing);
      ProgressTransitive(w0, w3, w);
      forall id | id in Tracked(w0)
        ensures id in w.sessions && !Live(w.sessions[id])
      {
        CopiedOrClosed(w0, w2, w3, w, id);
      }
    }

    /** A session tracked earlier has been copied unless it is closed already. */
    lemma CopiedOrClosed(w0: World, w2: World, w3: World, w': World, id: Id)
      requires id in w0.sessions && w0.sessions[id].joined && Progress(w0, w2)
      requires w3.sessions == w2.sessions && Progress(w3, w')
      requires id in w2.sessions && w2.sessions[id].joined && Live(w2.sessions[id]) ==> id in Tracked(w2)
      requires id in Tracked(w2) ==> id in w'.sessions && !Live(w'.sessions[id])
      ensures id in w'.sessions && !Live(w'.sessions[id])
    {
      assert SessionProgress(w0.sessions[id], w2.sessions[id]);
      assert SessionProgress(w3.sessions[id], w'.sessions[id]);
    }

    /** The goroutines that close the copied sessions, in whichever order they finish. */
    method CloseEach(copied: set<Id>, writing: bool)
      requires Valid() && copied <= w.sessions.Keys && forall id | id in copied :: w.sessions[id].joined
      requires writing ==> w.writer.Closing? && w.writer.left == copied
      modifies this
      ensures Valid() && Progress(old(w), w)
      ensures writing ==> w.upstream == old(w.upstream) && w.writer == old(w.writer).(left := {})
      ensures forall id | id in copied :: !Live(w.sessions[id])
    {
      hide Valid, Inv, Next, Run;
      ghost var w0 := w;
      var left := copied;
      while left != {}
        invariant Valid() && Progress(w0, w) && left <= copied
        invariant writing ==> w.upstream == w0.upstream && w.writer == w0.writer.(left := left)
        invariant forall id | id in copied && id !in left :: !Live(w.sessions[id])
        decreases left
      {
        var id :| id in left;
        ghost var w1 := w;
        Close(id, writing);
        ProgressTransitive(w0, w1, w);
        if writing {
          Take(Closed(id));
        }
        left := left - {id};
      }
    }

    /** Returns with the new address in place and every session that had read the old one closed. The
        caller has been granted the write lock. */
    method SetUpstreamAddress(address: string)
      requires Valid() && w.writer.Idle?
      modifies this
      ensures Valid() && w.writer.Idle? && w.upstream == address && Progress(old(w), w)
      ensures address != old(w.upstream) ==>
                forall id | id in old(w.sessions) && old(w.sessions)[id].read.Some? :: !Live(w.sessions[id])
      ensures forall id | id in w.sessions && Live(w.sessions[id]) && w.sessions[id].read.Some? ::
                w.sessions[id].read.value == address
      ensures address == old(w.upstream) ==> w == old(w)
    {
      hide Inv, Next, Run;
      if w.upstream != address {
        ghost var w0 := w;
        JoinedWhenTracked();
        Take(Lock(address));
        Interfere(None, true);
        JoinedWhenTracked();
        ghost var w1 := w;
        DisconnectAll(true);
        forall id | id in w0.sessions && w0.sessions[id].read.Some?
          ensures id in w.sessions && !Live(w.sessions[id])
        {
          assert SessionProgress(w0.sessions[id], w1.sessions[id]);
        }
        Take(Assign);
      }
      forall id | id in w.sessions
        ensures UpToDate(w, id, w.sessions[id])
      {
        Sound(id);
      }
    }

    /** handleConnection. A handler still waiting for the read lock has not finished. `dials` says whether
        the upstream accepts a connection; `chunks` is what the client sends. */
    method HandleConnection(id: Id, dials: bool, chunks: seq<nat>) returns (finished: bool, written: nat)
      requires Valid() && id !in w.sessions
      modifies this
      ensures Valid() && Progress(old(w), w) && id in w.sessions
      ensures if finished then !Live(w.sessions[id]) && !w.sessions[id].tracked && w.sessions[id].read.Some?
              else w.sessions[id].read.None? && written == 0
      ensures finished && dials && w.sessions[id].read.value != "" ==> w.sessions[id].attached
      ensures others == old(others) && old(w).writer.Idle? ==>
                && finished && w.sessions[id].read == Some(old(w).upstream)
                && written == if dials && old(w).upstream != "" then Sum(chunks) else 0
    {
      hide Valid, Progress, Live, Changed;
      ghost var w0 := w;
      TrackConnection(id);
      ghost var w1 := w;
      if !w.writer.Idle? {
        return false, 0;
      }
      written := Connect(id, dials, chunks);
      ProgressOf(w0, w1, w, id);
      ghost var w2 := w;
      Untrack(id);
      ProgressOf(w0, w2, w, id);
      finished := true;
    }

    method TrackConnection(id: Id)
      requires Valid() && id !in w.sessions
      modifies this
      ensures Valid() && Progress(old(w), w) && id in w.sessions && others >= old(others)
      ensures w.sessions[id].joined && w.sessions[id].read.None? && w.sessions[id].conn.None?
      ensures !w.sessions[id].attached && w.sessions[id].buffer == 0
      ensures others == old(others) ==>
                && w == old(w).(sessions := old(w).sessions[id := w.sessions[id]])
                && w.sessions[id].active && !w.sessions[id].closing && w.sessions[id].clientOpen
    {
      hide Valid, Progress;
      ghost var w0 := w;
      Take(Accept(id));
      ghost var w1 := w;
      Interfere(Some(id), false);
      ProgressOf(w0, w1, w, id);
      ghost var w2 := w;
      Act(id, Track(id));
      ProgressOf(w0, w2, w, id);
      ghost var w3 := w;
      Interfere(Some(id), false);
      ProgressOf(w0, w3, w, id);
    }

    /** Reads the upstream, dials it and proxies until one direction ends. */
    method Connect(id: Id, dials: bool, chunks: seq<nat>) returns (written: nat)
      requires Valid() && id in w.sessions && w.sessions[id].joined && w.sessions[id].read.None?
      requires w.sessions[id].conn.None? && !w.sessions[id].attached && w.sessions[id].buffer == 0 && w.writer.Idle?
      modifies this
      ensures Valid() && Progress(old(w), w) && id in w.sessions && w.sessions[id].joined
      ensures others >= old(others) && w.sessions[id].read == Some(old(w).upstream)
      ensures dials && old(w).upstream != "" ==> w.sessions[id].attached
      ensures others == old(others) && old(w).sessions[id].clientOpen && !old(w).sessions[id].closing ==>
                written == if dials && old(w).upstream != "" then Sum(chunks) else 0
    {
      hide Valid, Progress;
      ghost var w0 := w;
      Act(id, ReadUpstream(id));
      ghost var w1 := w;
      Interfere(Some(id), false);
      ProgressOf(w0, w1, w, id);
      written := 0;
      if dials && w.sessions[id].read.value != "" {
        ghost var w2 := w;
        written := Proxy(id, chunks);
        ProgressOf(w0, w2, w, id);
      }
    }

    /** The dialled connection's part of the handler. */
    method Proxy(id: Id, chunks: seq<nat>) returns (written: nat)
      requires Valid() && id in w.sessions && w.sessions[id].joined && w.sessions[id].read.Some?
      requires w.sessions[id].read.value != "" && w.sessions[id].conn.None? && !w.sessions[id].attached
      requires w.sessions[id].buffer == 0
      modifies this
      ensures Valid() && Progress(old(w), w) && id in w.sessions && w.sessions[id].attached && others >= old(others)
      ensures others == old(others) && old(w).sessions[id].clientOpen && !old(w).sessions[id].closing ==>
                written == Sum(chunks)
    {
      hide Valid, Progress;
      ghost var w0 := w;
      Act(id, Dial(id));
      ghost var w1 := w;
      Interfere(Some(id), false);
      ProgressOf(w0, w1, w, id);
      ghost var w2 := w;
      SetBackendConnection(id);
      ProgressOf(w0, w2, w, id);
      ghost var w3 := w;
      written := ProxyConnections(id, chunks);
      ProgressOf(w0, w3, w, id);
      ghost var w4 := w;
      Act(id, HangUp(id));
      ProgressOf(w0, w4, w, id);
    }

    /** Waits for the session's mutex, then attaches the dialled connection. */
    method SetBackendConnection(id: Id)
      requires Valid() && id in w.sessions && w.sessions[id].conn.Some? && !w.sessions[id].attached
      modifies this
      ensures Valid() && Progress(old(w), w) && id in w.sessions && w.sessions[id].attached
      ensures w.sessions[id].conn.Some? && w.sessions[id].joined == old(w).sessions[id].joined
      ensures w.sessions[id].buffer == old(w).sessions[id].buffer && others >= old(others)
      ensures others == old(others) ==> w.sessions[id] == old(w).sessions[id].(attached := true)
    {
      hide Valid;
      AwaitMutex(id);
      Act(id, Attach(id));
    }

    /** The copy loop from the client to the backend, chunk by chunk, with deliveries from the backend in
        between; it ends when a read or a write fails. */
    method ProxyConnections(id: Id, chunks: seq<nat>) returns (written: nat)
      requires Valid() && id in w.sessions && w.sessions[id].attached && w.sessions[id].conn.Some?
      requires w.sessions[id].buffer == 0
      modifies this
      ensures Valid() && Progress(old(w), w) && id in w.sessions && w.sessions[id].conn.Some?
      ensures others >= old(others) && exists k | 0 <= k <= |chunks| :: written == Sum(chunks[..k])
      ensures others == old(others) && old(w).sessions[id].clientOpen && old(w).sessions[id].conn.value.open ==>
                written == Sum(chunks)
    {
      hide Valid, Progress;
      ghost var w0 := w;
      ProgressReflexive(w);
      written := 0;
      var i, copying := 0, true;
      while i < |chunks| && copying
        invariant 0 <= i <= |chunks| && written == Sum(chunks[..i])
        invariant Valid() && Progress(w0, w) && id in w.sessions && others >= old(others)
        invariant w.sessions[id].attached && w.sessions[id].conn.Some?
        invariant copying ==> w.sessions[id].buffer == 0
        invariant others == old(others) && w0.sessions[id].clientOpen && w0.sessions[id].conn.value.open ==>
                    copying && w.sessions[id].clientOpen && w.sessions[id].conn.value.open
        decreases |chunks| - i, copying
      {
        ghost var w1 := w;
        copying := CopyChunk(id, chunks[i]);
        ProgressOf(w0, w1, w, id);
        if copying {
          assert chunks[..i + 1][..i] == chunks[..i];
          written := written + chunks[i];
          i := i + 1;
        }
      }
      assert i == |chunks| ==> chunks[..i] == chunks;
    }

    /** One round of the loop: read a chunk, write it on. */
    method CopyChunk(id: Id, bytes: nat) returns (ok: bool)
      requires Valid() && id in w.sessions && w.sessions[id].attached && w.sessions[id].conn.Some?
      requires w.sessions[id].buffer == 0
      modifies this
      ensures Valid() && Progress(old(w), w) && id in w.sessions && others >= old(others)
      ensures w.sessions[id].attached && w.sessions[id].conn.Some? && (ok ==> w.sessions[id].buffer == 0)
      ensures others == old(others) && old(w).sessions[id].clientOpen && old(w).sessions[id].conn.value.open ==>
                ok && w.sessions[id].clientOpen && w.sessions[id].conn.value.open
    {
      hide Valid, Progress;
      ghost var w0 := w;
      Interfere(Some(id), false);
      ProgressReflexive(w0);
      ProgressOf(w0, w0, w, id);
      var reply: bool := *;
      ghost var w1 := w;
      if reply && w.sessions[id].clientOpen {
        Act(id, Deliver(id));
        ProgressOf(w0, w1, w, id);
      }
      if !w.sessions[id].clientOpen {
        return false;
      }
      ghost var w2 := w;
      Act(id, ReadClient(id, bytes));
      ProgressOf(w0, w2, w, id);
      ghost var w3 := w;
      Interfere(Some(id), false);
      ProgressOf(w0, w3, w, id);
      ghost var w4 := w;
      ok := bytes == 0 || w.sessions[id].conn.value.open;
      if ok && bytes > 0 {
        Act(id, Forward(id));
        ProgressOf(w0, w4, w, id);
      }
    }
  }
}

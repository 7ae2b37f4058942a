/** The gateway's upstream switch as a step machine: connection handlers race with upstream changes
    and with whoever closes sessions. A step is one action under one lock, or one socket call.

    A closed client connection yields no bytes and takes none, a closed backend connection takes none,
    and dialling the empty address fails. */
module Gateway {
  import opened Common

  type Id = nat

  /** A backend connection and the address it was dialled to. */
  datatype Conn = Conn(address: string, open: bool)

  /** One client connection, its handler and its ProxySession.
      joined: Track has run. tracked: the session is in the tracker's map.
      active: isActive. closing: Close is in progress and holds the session's mutex.
      read: the upstream the handler read. conn: the connection it dialled. attached: the session
      knows that connection. buffer: bytes read from the client and not yet written to the backend. */
  datatype Session = Session(joined: bool, tracked: bool, active: bool, closing: bool, clientOpen: bool,
                             read: Option<string>, conn: Option<Conn>, attached: bool, buffer: nat)

  /** SetUpstreamAddress, which holds the write lock until the address is assigned. */
  datatype Writer =
    | Idle
    | Locked(address: string)                   // about to count the sessions
    | Counted(address: string)                  // there were some; about to copy the session list
    | Closing(address: string, left: set<Id>)   // waiting for the sessions it copied

  datatype World = World(upstream: string, writer: Writer, sessions: map<Id, Session>)

  datatype Step =
    // the handler of one connection
    | Accept(id: Id) | Track(id: Id) | ReadUpstream(id: Id) | Dial(id: Id) | Attach(id: Id)
    | ReadClient(id: Id, bytes: nat) | Forward(id: Id) | Deliver(id: Id) | HangUp(id: Id)
    // ProxySession.Close, by anyone, and removal from the tracker after it
    | CloseBegin(id: Id) | CloseClient(id: Id) | CloseBackend(id: Id) | Remove(id: Id)
    // SetUpstreamAddress
    | Lock(address: string) | Count | Snapshot | Closed(id: Id) | Assign

  const NEW_SESSION := Session(false, false, true, false, true, None, None, false, 0)

  function Tracked(w: World): set<Id> {
    set id | id in w.sessions && w.sessions[id].tracked
  }

  /** Not fully closed yet. */
  predicate Live(x: Session) {
    x.active || x.closing
  }

  predicate HandlerEnabled(w: World, step: Step, x: Session) {
    match step
    case Track(_) => !x.joined
    case ReadUpstream(_) => x.joined && x.read.None? && w.writer.Idle?
    case Dial(_) => x.read.Some? && x.read.value != "" && x.conn.None?
    case Attach(_) => x.conn.Some? && !x.attached && !x.closing
    case ReadClient(_, _) => x.attached && x.clientOpen && x.buffer == 0
    case Forward(_) => x.attached && x.buffer > 0 && x.conn.Some? && x.conn.value.open
    case Deliver(_) => x.attached && x.clientOpen && x.conn.Some?
    case HangUp(_) => x.conn.Some?
    case _ => false
  }

  predicate CloserEnabled(step: Step, x: Session) {
    match step
    case CloseBegin(_) => x.joined && x.active && !x.closing
    case CloseClient(_) => x.closing && x.clientOpen
    case CloseBackend(_) => x.closing && !x.clientOpen
    case Remove(_) => x.tracked && !Live(x)
    case _ => false
  }

  predicate WriterEnabled(w: World, step: Step) {
    match step
    case Lock(address) => w.writer.Idle? && address != w.upstream
    case Count => w.writer.Locked?
    case Snapshot => w.writer.Counted?
    case Closed(id) => w.writer.Closing? && id in w.writer.left && id in w.sessions && !Live(w.sessions[id])
    case Assign => w.writer.Closing? && w.writer.left == {}
    case _ => false
  }

  predicate OfHandler(step: Step) {
    step.Track? || step.ReadUpstream? || step.Dial? || step.Attach? || step.ReadClient? || step.Forward?
    || step.Deliver? || step.HangUp?
  }

  predicate OfCloser(step: Step) {
    step.CloseBegin? || step.CloseClient? || step.CloseBackend? || step.Remove?
  }

  predicate OfWriter(step: Step) {
    step.Lock? || step.Count? || step.Snapshot? || step.Closed? || step.Assign?
  }

  predicate Enabled(w: World, step: Step) {
    if step.Accept? then step.id !in w.sessions
    else if OfHandler(step) then step.id in w.sessions && HandlerEnabled(w, step, w.sessions[step.id])
    else if OfCloser(step) then step.id in w.sessions && CloserEnabled(step, w.sessions[step.id])
    else WriterEnabled(w, step)
  }

  /** What a step of its handler or of a closer does to a session. */
  function Changed(upstream: string, step: Step, x: Session): Session {
    match step
    case Track(_) => x.(joined := true, tracked := true)
    case ReadUpstream(_) => x.(read := Some(upstream))
    case Dial(_) => if x.read.Some? then x.(conn := Some(Conn(x.read.value, true))) else x
    case Attach(_) => x.(attached := true)
    case ReadClient(_, bytes) => x.(buffer := bytes)
    case Forward(_) => x.(buffer := 0)
    case HangUp(_) => Hung(x)
    case CloseBegin(_) => x.(active := false, closing := true)
    case CloseClient(_) => x.(clientOpen := false)
    case CloseBackend(_) => if x.attached then Hung(x).(closing := false) else x.(closing := false)
    case Remove(_) => x.(tracked := false)
    case _ => x
  }

  function Hung(x: Session): Session {
    if x.conn.Some? then x.(conn := Some(x.conn.value.(open := false))) else x
  }

  /** SetUpstreamAddress after one of its steps; nothing tracked means nothing to wait for. */
  function NextWriter(w: World, step: Step): Writer {
    match step
    case Lock(address) => Locked(address)
    case Count =>
      if w.writer.Idle? then Idle
      else if Tracked(w) == {} then Closing(w.writer.address, {}) else Counted(w.writer.address)
    case Snapshot => if w.writer.Idle? then Idle else Closing(w.writer.address, Tracked(w))
    case Closed(id) => if w.writer.Closing? then w.writer.(left := w.writer.left - {id}) else w.writer
    case Assign => Idle
    case _ => w.writer
  }

  function Apply(w: World, step: Step): World {
    if step.Accept? then w.(sessions := w.sessions[step.id := NEW_SESSION])
    else if OfWriter(step) then
      w.(writer := NextWriter(w, step),
         upstream := if step.Assign? && !w.writer.Idle? then w.writer.address else w.upstream)
    else if step.id in w.sessions then
      w.(sessions := w.sessions[step.id := Changed(w.upstream, step, w.sessions[step.id])])
    else w
  }

  predicate Next(w: World, step: Step, w': World) {
    Enabled(w, step) && w' == Apply(w, step)
  }

  /** A gateway as NewServer makes it, with no upstream. */
  predicate Init(w: World) {
    w == World("", Idle, map[])
  }

  predicate Run(worlds: seq<World>, steps: seq<Step>) {
    && |worlds| == |steps| + 1 && Init(worlds[0])
    && forall k | 0 <= k < |steps| :: Next(worlds[k], steps[k], worlds[k + 1])
  }

  // -- The invariant -----------------------------------------------------------------------------

  /** What holds of a session by itself. A fully closed one has a closed client, and either nothing
      buffered or a closed backend. */
  predicate SessionSound(x: Session) {
    && (x.active ==> !x.closing)
    && (x.tracked || x.read.Some? || !x.active ==> x.joined)
    && (x.conn.Some? ==> x.read.Some? && x.read.value != "" && x.conn.value.address == x.read.value)
    && (x.attached ==> x.conn.Some?)
    && (x.buffer > 0 ==> x.attached)
    && (x.joined && Live(x) ==> x.tracked)
    && (x.clientOpen ==> Live(x))
    && (!Live(x) && x.buffer > 0 ==> !x.conn.value.open)
  }

  /** A live session that has read an upstream holds the current one, and an upstream change that has
      copied the session list is waiting for it. */
  predicate UpToDate(w: World, id: Id, x: Session) {
    Live(x) && x.read.Some? ==>
      x.read.value == w.upstream && (w.writer.Closing? ==> id in w.writer.left)
  }

  ghost predicate Inv(w: World) {
    forall id | id in w.sessions :: SessionSound(w.sessions[id]) && UpToDate(w, id, w.sessions[id])
  }

  lemma SessionKept(w: World, step: Step, x: Session)
    requires SessionSound(x)
    requires HandlerEnabled(w, step, x) || CloserEnabled(step, x)
    ensures SessionSound(Changed(w.upstream, step, x))
  {
  }

  lemma SessionUpToDate(w: World, step: Step, id: Id, x: Session)
    requires SessionSound(x) && UpToDate(w, id, x)
    requires HandlerEnabled(w, step, x) || CloserEnabled(step, x)
    ensures UpToDate(w, id, Changed(w.upstream, step, x))
  {
  }

  lemma WriterKeeps(w: World, step: Step)
    requires Inv(w) && OfWriter(step) && Enabled(w, step)
    ensures Inv(Apply(w, step))
  {
    var w' := Apply(w, step);
    forall id | id in w'.sessions
      ensures SessionSound(w'.sessions[id]) && UpToDate(w', id, w'.sessions[id])
    {
      assert SessionSound(w.sessions[id]) && UpToDate(w, id, w.sessions[id]);
      if Live(w.sessions[id]) && w.sessions[id].read.Some? {
        assert id in Tracked(w);
      }
    }
  }

  lemma StepKeeps(w: World, step: Step, w': World)
    requires Inv(w) && Next(w, step, w')
    ensures Inv(w')
  {
    if OfWriter(step) {
      WriterKeeps(w, step);
    } else if !step.Accept? {
      SessionKept(w, step, w.sessions[step.id]);
      SessionUpToDate(w, step, step.id, w.sessions[step.id]);
      forall id | id in w'.sessions
        ensures SessionSound(w'.sessions[id]) && UpToDate(w', id, w'.sessions[id])
      {
        if id != step.id {
          assert SessionSound(w.sessions[id]) && UpToDate(w, id, w.sessions[id]);
        }
      }
    }
  }

  lemma {:induction false} RunKeeps(worlds: seq<World>, steps: seq<Step>, k: nat)
    requires Run(worlds, steps) && k < |worlds|
    ensures Inv(worlds[k])
    decreases k
  {
    if k > 0 {
      RunKeeps(worlds, steps, k - 1);
      StepKeeps(worlds[k - 1], steps[k - 1], worlds[k]);
    }
  }

  // -- What clients see --------------------------------------------------------------------------

  /** In every interleaving, whenever no change is in progress, each still-active session that has
      read an upstream holds the current one. */
  lemma SessionsHoldCurrentUpstream(worlds: seq<World>, steps: seq<Step>, k: nat, id: Id)
    requires Run(worlds, steps) && k < |worlds| && worlds[k].writer.Idle?
    requires id in worlds[k].sessions && worlds[k].sessions[id].active && worlds[k].sessions[id].read.Some?
    ensures worlds[k].sessions[id].read == Some(worlds[k].upstream)
  {
    RunKeeps(worlds, steps, k);
  }

  /** In every interleaving, every byte a client sends goes to the upstream that is current when it is
      forwarded, and every byte a client gets comes from it. With no upstream set none moves. */
  lemma BytesGoToCurrentUpstream(worlds: seq<World>, steps: seq<Step>, k: nat)
    requires Run(worlds, steps) && k < |steps| && (steps[k].Forward? || steps[k].Deliver?)
    ensures var w := worlds[k];
            && w.upstream != "" && steps[k].id in w.sessions
            && w.sessions[steps[k].id].conn.Some?
            && w.sessions[steps[k].id].conn.value.address == w.upstream
  {
    RunKeeps(worlds, steps, k);
    assert Next(worlds[k], steps[k], worlds[k + 1]);
    assert SessionSound(worlds[k].sessions[steps[k].id]);
  }

  /** Once a change to another address has returned, nothing is exchanged with the old one until it is
      set again, whatever handlers were doing meanwhile. */
  lemma OldUpstreamCutOff(worlds: seq<World>, steps: seq<Step>, k: nat, stale: string)
    requires Run(worlds, steps) && k < |steps| && (steps[k].Forward? || steps[k].Deliver?)
    requires worlds[k].upstream != stale
    ensures steps[k].id in worlds[k].sessions
    ensures var x := worlds[k].sessions[steps[k].id]; x.conn.Some? && x.conn.value.address != stale
  {
    BytesGoToCurrentUpstream(worlds, steps, k);
  }

  lemma ClosedStays(w: World, step: Step, w': World, id: Id)
    requires Inv(w) && Next(w, step, w') && id in w.sessions && !Live(w.sessions[id])
    ensures id in w'.sessions && !Live(w'.sessions[id]) && step != Forward(id) && step != Deliver(id)
  {
    assert SessionSound(w.sessions[id]);
  }

  /** Once closed, a session stays closed and moves no byte in either direction. */
  lemma {:induction false} ClosedForGood(worlds: seq<World>, steps: seq<Step>, from: nat, k: nat, id: Id)
    requires Run(worlds, steps) && from <= k < |steps|
    requires id in worlds[from].sessions && !Live(worlds[from].sessions[id])
    ensures id in worlds[k + 1].sessions && !Live(worlds[k + 1].sessions[id])
    ensures steps[k] != Forward(id) && steps[k] != Deliver(id)
    decreases k
  {
    hide Inv, Next, Live;
    if from < k {
      ClosedForGood(worlds, steps, from, k - 1, id);
    }
    RunKeeps(worlds, steps, k);
    ClosedStays(worlds[k], steps[k], worlds[k + 1], id);
  }

  // -- Why Track comes before the read -----------------------------------------------------------

  /** A gateway whose handlers may read the upstream before their session is tracked. */
  predicate EarlyNext(w: World, step: Step, w': World) {
    && w' == Apply(w, step)
    && (Enabled(w, step)
        || (step.ReadUpstream? && step.id in w.sessions && w.sessions[step.id].read.None? && w.writer.Idle?))
  }

  ghost predicate EarlyRun(w: World, steps: seq<Step>, end: World)
    decreases |steps|
  {
    if steps == [] then w == end
    else EarlyNext(w, steps[0], Apply(w, steps[0])) && EarlyRun(Apply(w, steps[0]), steps[1..], end)
  }

  lemma EarlyRunStep(w: World, step: Step, w': World, steps: seq<Step>, end: World)
    requires EarlyNext(w, step, w') && EarlyRun(w', steps, end)
    ensures EarlyRun(w, [step] + steps, end)
  {
    assert ([step] + steps)[1..] == steps;
  }

  /** There a handler that has read "a" is missed by the change to "b", and forwards to "a" after it. */
  lemma ReadingBeforeTrackingLeaks()
    ensures exists w, steps, end ::
              && Init(w) && EarlyRun(w, steps, end) && Enabled(end, Forward(0))
              && end.writer.Idle? && end.upstream == "b" && end.sessions[0].conn == Some(Conn("a", true))
  {
    hide EarlyRun;
    var x := NEW_SESSION.(read := Some("a"));
    var leaked := World("b", Idle, map[0 := Session(true, true, true, false, true, Some("a"),
                                                    Some(Conn("a", true)), true, 1)]);
    var changed := World("b", Idle, map[0 := x]);
    var late := LateHandler(changed, leaked, x);
    var start, first := World("", Idle, map[]), World("a", Idle, map[]);
    var read := World("a", Idle, map[0 := x]);
    var switched := UnseenChange(read, "b", late, leaked);
    EarlyRunStep(World("a", Idle, map[0 := NEW_SESSION]), ReadUpstream(0), read, switched, leaked);
    EarlyRunStep(first, Accept(0), World("a", Idle, map[0 := NEW_SESSION]), [ReadUpstream(0)] + switched, leaked);
    var whole := UnseenChange(start, "a", [Accept(0)] + ([ReadUpstream(0)] + switched), leaked);
    assert EarlyRun(start, whole, leaked);
  }

  /** A change of upstream that finds no tracked session. */
  lemma UnseenChange(w: World, address: string, rest: seq<Step>, end: World) returns (steps: seq<Step>)
    requires w.writer.Idle? && address != w.upstream && Tracked(w) == {}
    requires EarlyRun(World(address, Idle, w.sessions), rest, end)
    ensures EarlyRun(w, steps, end)
  {
    var locked := w.(writer := Locked(address));
    var empty := w.(writer := Closing(address, {}));
    assert Tracked(locked) == Tracked(w);
    EarlyRunStep(empty, Assign, World(address, Idle, w.sessions), rest, end);
    EarlyRunStep(locked, Count, empty, [Assign] + rest, end);
    EarlyRunStep(w, Lock(address), locked, [Count] + ([Assign] + rest), end);
    steps := [Lock(address)] + ([Count] + ([Assign] + rest));
  }

  /** The rest of a handler that has read "a" and is not tracked yet. */
  lemma LateHandler(w: World, end: World, x: Session) returns (steps: seq<Step>)
    requires x == NEW_SESSION.(read := Some("a")) && w == World("b", Idle, map[0 := x])
    requires end == World("b", Idle, map[0 := Session(true, true, true, false, true, Some("a"),
                                                      Some(Conn("a", true)), true, 1)])
    ensures EarlyRun(w, steps, end)
  {
    var x2 := x.(joined := true, tracked := true);
    var x3 := x2.(conn := Some(Conn("a", true)));
    var x4 := x3.(attached := true);
    var w2, w3, w4 := w.(sessions := map[0 := x2]), w.(sessions := map[0 := x3]), w.(sessions := map[0 := x4]);
    EarlyRunStep(w4, ReadClient(0, 1), end, [], end);
    EarlyRunStep(w3, Attach(0), w4, [ReadClient(0, 1)] + [], end);
    EarlyRunStep(w2, Dial(0), w3, [Attach(0)] + ([ReadClient(0, 1)] + []), end);
    EarlyRunStep(w, Track(0), w2, [Dial(0)] + ([Attach(0)] + ([ReadClient(0, 1)] + [])), end);
    steps := [Track(0)] + ([Dial(0)] + ([Attach(0)] + ([ReadClient(0, 1)] + [])));
  }
}

/** One node: what the controller caches about an instance, and the instance itself (memgraph_node.go).
    Any caller may issue any call at any time. A call that is reported as failed has no effect, or
    is lost: the instance changed and the cache was not told. */
module NodeCache {
  import opened Common
  import opened ReplicaStatus
  import opened Topology
  import opened Coherence

  predicate Distinct(list: seq<ReplicaInfo>) {
    forall i, j | 0 <= i < j < |list| :: list[i].name != list[j].name
  }

  /** What SHOW REPLICAS answers: one row per registration, in its mode. */
  predicate Answers(list: seq<ReplicaInfo>, db: Db) {
    Lists(list, db.regs) && Distinct(list)
  }

  /** A cached role is the true one; a valid cached list is what the instance would answer. */
  predicate Fits(db: Db, n: Node) {
    && (n.role.Some? ==> n.role.value == db.role)
    && (n.hasReplicas ==> n.role.Some? && Answers(n.replicas, db))
  }

  // -- The calls that change an instance -------------------------------------------------------

  datatype Command = ToMain | ToReplica | Add(replica: Pod, mode: Mode) | Remove(replica: Pod)

  /** An instance refuses to register a name that it has, or to drop one that it has not. */
  predicate Accepts(db: Db, c: Command) {
    match c
    case Add(j, _) => j !in db.regs
    case Remove(j) => j in db.regs
    case _ => true
  }

  function Effect(db: Db, c: Command): Db
    requires Accepts(db, c)
  {
    match c
    case ToMain => Promoted(db)
    case ToReplica => Demoted(db)
    case Add(j, mode) => db.(regs := db.regs[j := mode])
    case Remove(j) => db.(regs := db.regs - {j})
  }

  /** What the node remembers after a command that was acknowledged. */
  function Noted(n: Node, c: Command): Node {
    match c
    case ToMain => Cleared(n)
    case ToReplica => Cleared(n)
    case Add(_, _) => n.(hasReplicas := false)
    case Remove(j) => n.(replicas := WithoutFirst(n.replicas, j))
  }

  lemma NamesOfFirst(r: ReplicaInfo, rest: seq<ReplicaInfo>)
    ensures Names([r] + rest) == {r.name} + Names(rest)
  {
    var list := [r] + rest;
    assert list[0] == r && forall q | q in rest :: q in list;
  }

  lemma DistinctFirst(r: ReplicaInfo, rest: seq<ReplicaInfo>)
    ensures Distinct([r] + rest) <==> Distinct(rest) && r.name !in Names(rest)
  {
    var list := [r] + rest;
    assert forall i | 0 <= i < |rest| :: rest[i] == list[i + 1];
    assert list[0] == r && list[1..] == rest;
  }

  lemma {:induction false} WithoutFirstDrops(list: seq<ReplicaInfo>, j: Pod)
    requires Distinct(list)
    ensures Distinct(WithoutFirst(list, j)) && Names(WithoutFirst(list, j)) == Names(list) - {j}
    ensures forall r | r in WithoutFirst(list, j) :: r in list
  {
    if list != [] {
      var rest := list[1..];
      assert list == [list[0]] + rest;
      hide Distinct, Names;
      DistinctFirst(list[0], rest);
      NamesOfFirst(list[0], rest);
      WithoutFirstDrops(rest, j);
      DistinctFirst(list[0], WithoutFirst(rest, j));
      NamesOfFirst(list[0], WithoutFirst(rest, j));
    } else {
      assert Names(list) == {};
    }
  }

  lemma AcknowledgedFits(db: Db, n: Node, c: Command)
    requires Fits(db, n) && Accepts(db, c)
    ensures Fits(Effect(db, c), Noted(n, c))
  {
    if c.Remove? && n.hasReplicas {
      WithoutFirstDrops(n.replicas, c.replica);
    }
  }

  /** A lost command leaves the node wrong exactly if the cache holds something that it changed. */
  predicate Unnoticeable(db: Db, n: Node, c: Command) {
    match c
    case ToMain => n.role != Some(Replica)
    case ToReplica => n.role != Some(Main)
    case Add(_, _) => !n.hasReplicas
    case Remove(_) => !n.hasReplicas
  }

  lemma LostFitsIff(db: Db, n: Node, c: Command)
    requires Fits(db, n) && Accepts(db, c)
    ensures Fits(Effect(db, c), n) <==> Unnoticeable(db, n, c)
  {
  }

  // -- The node as the source writes it --------------------------------------------------------

  class MemgraphNode {
    var db: Db          // the instance
    var cache: Node

    constructor (db: Db, ip: string)
      ensures this.db == db && cache == Node(ip, None, [], false) && Fits(this.db, cache)
    {
      this.db := db;
      cache := Node(ip, None, [], false);
    }

    method GetReplicationRole(refresh: bool) returns (role: Option<Role>, ok: bool)
      modifies this
      ensures db == old(db) && role == cache.role && (Fits(db, old(cache)) ==> Fits(db, cache))
      ensures ok ==> role.Some?
      ensures ok ==>
                cache == if refresh || old(cache).role.None? then old(cache).(role := Some(db.role)) else old(cache)
      ensures !ok ==> cache == old(cache) && (refresh || cache.role.None?)
    {
      if cache.role.None? || refresh {
        var answered: bool := *;
        if cache.ip == "" || !answered {
          return cache.role, false;
        }
        cache := cache.(role := Some(db.role));
      }
      return cache.role, true;
    }

    method GetReplicas(refresh: bool) returns (list: seq<ReplicaInfo>, ok: bool)
      modifies this
      ensures db == old(db) && (Fits(db, old(cache)) ==> Fits(db, cache))
      ensures ok ==> cache.role == Some(Main) && cache.hasReplicas && list == cache.replicas
      ensures ok && (refresh || !old(cache).hasReplicas) ==> Answers(list, db)
      ensures ok && !refresh && old(cache).hasReplicas && old(cache).role.Some? ==> cache == old(cache)
      ensures !ok ==> cache == old(cache).(role := cache.role)
    {
      var role;
      role, ok := GetReplicationRole(refresh);
      if !ok || role != Some(Main) {
        return cache.replicas, false;
      }
      if !cache.hasReplicas || refresh {
        var answer: seq<ReplicaInfo> := *;
        if cache.ip == "" || !Answers(answer, db) {   // the query failed
          return cache.replicas, false;
        }
        cache := cache.(replicas := answer, hasReplicas := true);
      }
      return cache.replicas, true;
    }

    /** Sends a command, which may fail, take effect, or take effect and be reported as failed. */
    method Send(c: Command) returns (ok: bool)
      modifies this`db
      ensures ok ==> Accepts(old(db), c) && db == Effect(old(db), c) && cache.ip != ""
      ensures !ok ==> db == old(db) || (Accepts(old(db), c) && db == Effect(old(db), c))
    {
      var effect: bool, reported: bool := *, *;
      ok := false;
      if cache.ip != "" && Accepts(db, c) && effect {
        db := Effect(db, c);
        ok := reported;
      }
    }

    method SetToMainRole() returns (ok: bool)
      modifies this
      ensures ok ==> db == Promoted(old(db)) && cache.role.None? && !cache.hasReplicas
      ensures !ok ==> cache == old(cache) && (db == old(db) || db == Promoted(old(db)))
      ensures Fits(old(db), old(cache)) ==>
                (Fits(db, cache) <==> ok || db == old(db) || old(cache).role != Some(Replica))
    {
      ok := Send(ToMain);
      if ok {
        cache := cache.(role := None, hasReplicas := false);
      }
      FitsAfter(old(db), old(cache), ToMain);
    }

    method SetToReplicaRole() returns (ok: bool)
      modifies this
      ensures ok ==> db == Demoted(old(db)) && cache.role.None? && !cache.hasReplicas
      ensures !ok ==> cache == old(cache) && (db == old(db) || db == Demoted(old(db)))
      ensures Fits(old(db), old(cache)) ==>
                (Fits(db, cache) <==> ok || db == old(db) || old(cache).role != Some(Main))
    {
      ok := Send(ToReplica);
      if ok {
        cache := cache.(role := None, hasReplicas := false);
      }
      FitsAfter(old(db), old(cache), ToReplica);
    }

    method RegisterReplica(j: Pod, mode: Mode) returns (ok: bool)
      modifies this
      ensures ok ==> j !in old(db).regs
      ensures ok ==> db == old(db).(regs := old(db).regs[j := mode]) && cache == old(cache).(hasReplicas := false)
      ensures !ok ==> cache == old(cache) && (db == old(db) || db == old(db).(regs := old(db).regs[j := mode]))
      ensures Fits(old(db), old(cache)) ==>
                (Fits(db, cache) <==> ok || db == old(db) || !old(cache).hasReplicas)
    {
      ok := Send(Add(j, mode));
      if ok {
        cache := cache.(hasReplicas := false);
      }
      FitsAfter(old(db), old(cache), Add(j, mode));
    }

    /** The first cached row of that name goes too. */
    method DropReplica(j: Pod) returns (ok: bool)
      modifies this
      ensures ok ==> j in old(db).regs && db == old(db).(regs := old(db).regs - {j})
      ensures ok ==> cache == old(cache).(replicas := WithoutFirst(old(cache).replicas, j))
      ensures !ok ==> cache == old(cache) && (db == old(db) || db == old(db).(regs := old(db).regs - {j}))
      ensures Fits(old(db), old(cache)) ==>
                (Fits(db, cache) <==> ok || db == old(db) || !old(cache).hasReplicas)
    {
      ok := Send(Remove(j));
      if ok {
        var list := WithoutRow(cache.replicas, j);
        cache := cache.(replicas := list);
      }
      hide Fits;
      FitsAfter(old(db), old(cache), Remove(j));
    }
  }

  /** The loop over the cached rows: the first one of that name is cut out. */
  method WithoutRow(list: seq<ReplicaInfo>, j: Pod) returns (rest: seq<ReplicaInfo>)
    ensures rest == WithoutFirst(list, j)
  {
    var i := 0;
    while i < |list| && list[i].name != j
      invariant 0 <= i <= |list|
      invariant WithoutFirst(list, j) == list[..i] + WithoutFirst(list[i..], j)
    {
      assert list[i..][1..] == list[i + 1..];
      i := i + 1;
    }
    if i < |list| {
      assert list[i..][1..] == list[i + 1..];
      return list[..i] + list[i + 1..];
    }
    return list;
  }

  lemma FitsAfter(db: Db, n: Node, c: Command)
    ensures Fits(db, n) && Accepts(db, c) ==> Fits(Effect(db, c), Noted(n, c))
    ensures Fits(db, n) && Accepts(db, c) ==> (Fits(Effect(db, c), n) <==> Unnoticeable(db, n, c))
  {
    if Fits(db, n) && Accepts(db, c) {
      AcknowledgedFits(db, n, c);
      LostFitsIff(db, n, c);
    }
  }
}

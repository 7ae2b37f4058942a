/** Rows of SHOW REPLICAS as the controller keeps them: parsing data_info, judging one replica and
    judging the cluster (memgraph_client.go, isHealthy in controller_core.go). */
module ReplicaStatus {
  import opened Common

  datatype Role = Main | Replica

  datatype Mode = StrictSync | Async

  /** The parsed data_info of one replica. */
  datatype DataInfo = DataInfo(behind: int, status: string, ts: int, healthy: bool)

  datatype ReplicaInfo = ReplicaInfo(name: Pod, mode: Mode, info: Option<DataInfo>)

  /** The replica was reported caught up when the row was read. Lag is not consulted. */
  predicate Ready(r: ReplicaInfo) {
    r.info.Some? && r.info.value.status == "ready"
  }

  function Names(list: seq<ReplicaInfo>): set<Pod> {
    set r | r in list :: r.name
  }

  // -- Parsing data_info ---------------------------------------------------------------------

  /** A decoded value. The YAML decoder yields Int, the Bolt driver Int64 and Float. */
  datatype Value =
    | Int(n: int) | Int64(n: int) | Float(x: real) | Text(t: string) | Object(fields: map<string, Value>)
    | OtherType

  /** The data_info column of one record. Strings are given by what decoding them yields. */
  datatype Column =
    | Absent | BlankString | EmptyObjectString | UndecodableString
    | DecodedString(root: map<string, Value>) | Decoded(root: map<string, Value>) | WrongType

  /** Go's int(v) for a float drops the fraction. */
  function Truncate(x: real): int {
    if x >= 0.0 then x.Floor else -((-x).Floor)
  }

  function Assess(status: string, behind: int): bool {
    status == "ready" && behind >= 0
  }

  function Judged(behind: int, status: string, ts: int): DataInfo {
    DataInfo(behind, status, ts, Assess(status, behind))
  }

  function Unusable(status: string): DataInfo {
    DataInfo(-1, status, 0, false)
  }

  /** parseDataInfo once the string is decoded: wrong types fall back field by field. */
  function ParseText(root: map<string, Value>): DataInfo {
    if "memgraph" !in root || !root["memgraph"].Object? then Unusable("malformed")
    else
      var m := root["memgraph"].fields;
      var behind := if "behind" in m && m["behind"].Int? then m["behind"].n else -1;
      var status := if "status" in m && m["status"].Text? then m["status"].t else "unknown";
      var ts := if "ts" in m && m["ts"].Int? then m["ts"].n else 0;
      Judged(behind, status, ts)
  }

  function Number(v: Value): Option<int> {
    match v
    case Int(n) => Some(n)
    case Int64(n) => Some(n)
    case Float(x) => Some(Truncate(x))
    case _ => None
  }

  /** parseDataInfoMap: a wrong type for lag or status rejects the whole value. */
  function ParseMap(root: map<string, Value>): DataInfo {
    if "memgraph" !in root || !root["memgraph"].Object? then Unusable("malformed")
    else
      var m := root["memgraph"].fields;
      if "behind" in m && Number(m["behind"]).None? then Unusable("malformed")
      else
        var behind := if "behind" in m then Number(m["behind"]).value else -1;
        if "status" in m && !m["status"].Text? then Unusable("malformed")
        else
          var status := if "status" in m then m["status"].t else "unknown";
          var ts := if "ts" in m && Number(m["ts"]).Some? then Number(m["ts"]).value else 0;
          Judged(behind, status, ts)
  }

  function ParseColumn(c: Column): DataInfo {
    match c
    case Absent => Unusable("missing")
    case BlankString => Unusable("unknown")
    case EmptyObjectString => DataInfo(0, "empty", 0, false)
    case UndecodableString => Unusable("malformed")
    case DecodedString(root) => ParseText(root)
    case Decoded(root) => ParseMap(root)
    case WrongType => Unusable("type_error")
  }

  /** The health flag says what it should: ready and not negatively behind. */
  predicate WellParsed(r: ReplicaInfo) {
    r.info.Some? && (r.info.value.healthy <==> r.info.value.status == "ready" && r.info.value.behind >= 0)
  }

  // -- What the fields mean, whichever path they took -------------------------------------------

  /** The value of a field of the decoded memgraph object; None if the column has no such object or the
      object no such field. */
  function Reported(c: Column, field: string): Option<Value> {
    if (c.DecodedString? || c.Decoded?) && "memgraph" in c.root && c.root["memgraph"].Object?
       && field in c.root["memgraph"].fields
    then Some(c.root["memgraph"].fields[field]) else None
  }

  predicate NoNumber(v: Value) {
    v.Text? || v.Object? || v.OtherType?
  }

  /** Ready is what the instance said, never a default. */
  lemma ReadyOnlyIfReported(c: Column)
    ensures ParseColumn(c).status == "ready" ==> Reported(c, "status") == Some(Text("ready"))
    ensures ParseColumn(c).healthy ==>
              Reported(c, "status") == Some(Text("ready"))
              && Reported(c, "behind").Some? && !NoNumber(Reported(c, "behind").value)
  {
  }

  /** An int lag, a string status and an int timestamp keep their values, each in its own field, on both
      paths, and decide the health. */
  lemma ReportedFieldsKept(c: Column, behind: int, status: string, ts: int)
    requires Reported(c, "behind") == Some(Int(behind)) && Reported(c, "status") == Some(Text(status))
    requires Reported(c, "ts") == Some(Int(ts))
    ensures ParseColumn(c) == DataInfo(behind, status, ts, status == "ready" && behind >= 0)
  {
  }

  /** The driver's own numbers are kept as well, floats without their fraction. */
  lemma DriverNumbersKept(c: Column, behind: Value, status: string, ts: Value)
    requires c.Decoded? && Reported(c, "status") == Some(Text(status))
    requires Reported(c, "behind") == Some(behind) && (behind.Int64? || behind.Float?)
    requires Reported(c, "ts") == Some(ts) && (ts.Int64? || ts.Float?)
    ensures ParseColumn(c) == DataInfo(if behind.Int64? then behind.n else Truncate(behind.x), status,
                                       if ts.Int64? then ts.n else Truncate(ts.x),
                                       status == "ready" && ParseColumn(c).behind >= 0)
  {
  }

  lemma TruncatesTowardZero(x: real)
    ensures x >= 0.0 ==> 0 <= Truncate(x) && Truncate(x) as real <= x < Truncate(x) as real + 1.0
    ensures x <= 0.0 ==> Truncate(x) <= 0 && Truncate(x) as real - 1.0 < x <= Truncate(x) as real
  {
  }

  /** Without a memgraph object nothing is known about the replica; an empty object is not behind. */
  lemma ColumnsWithoutObject(c: Column)
    requires (c.DecodedString? || c.Decoded?) ==> !("memgraph" in c.root && c.root["memgraph"].Object?)
    ensures var d := ParseColumn(c);
            && !d.healthy && d.ts == 0 && d.behind == (if c.EmptyObjectString? then 0 else -1)
            && d.status == match c {
                 case Absent => "missing"
                 case BlankString => "unknown"
                 case EmptyObjectString => "empty"
                 case WrongType => "type_error"
                 case _ => "malformed"
               }
  {
  }

  /** An object with missing fields, or with fields of a wrong type: a string falls back field by field, a
      value the driver decoded is rejected as a whole unless only the timestamp is wrong. */
  lemma ColumnsWithOddFields(c: Column)
    requires c.DecodedString? || c.Decoded?
    requires "memgraph" in c.root && c.root["memgraph"].Object?
    ensures var behind, status, ts := Reported(c, "behind"), Reported(c, "status"), Reported(c, "ts");
            var d := ParseColumn(c);
            && (behind.None? ==> d.behind == -1)
            && (ts.None? || NoNumber(ts.value) ==> d.ts == 0)
            && (c.DecodedString? ==>
                  && (behind.Some? && !behind.value.Int? ==> d.behind == -1)
                  && (status.None? || !status.value.Text? ==> d.status == "unknown")
                  && (ts.Some? && !ts.value.Int? ==> d.ts == 0))
            && (c.Decoded? ==>
                  && ((behind.Some? && NoNumber(behind.value)) || (status.Some? && !status.value.Text?)
                      ==> d == DataInfo(-1, "malformed", 0, false))
                  && (status.None? && (behind.None? || !NoNumber(behind.value)) ==> d.status == "unknown"))
  {
  }

  datatype Row = Row(name: Pod, mode: Mode, dataInfo: Column)

  /** Every row gets a status, and it is healthy exactly when ready with non-negative lag. */
  method QueryReplicas(rows: seq<Row>) returns (replicas: seq<ReplicaInfo>)
    ensures |replicas| == |rows|
    ensures forall i | 0 <= i < |rows| ::
              && replicas[i].name == rows[i].name && replicas[i].mode == rows[i].mode
              && WellParsed(replicas[i]) && replicas[i].info.value == ParseColumn(rows[i].dataInfo)
  {
    replicas := [];
    for i := 0 to |rows|
      invariant |replicas| == i
      invariant forall k | 0 <= k < i ::
                  && replicas[k].name == rows[k].name && replicas[k].mode == rows[k].mode
                  && WellParsed(replicas[k]) && replicas[k].info.value == ParseColumn(rows[k].dataInfo)
    {
      replicas := replicas + [ReplicaInfo(rows[i].name, rows[i].mode, Some(ParseColumn(rows[i].dataInfo)))];
    }
  }

  /** A memgraph object whose lag is an int, whose status is a string and whose timestamp is an int. */
  predicate Regular(root: map<string, Value>) {
    && "memgraph" in root && root["memgraph"].Object?
    && var m := root["memgraph"].fields;
    && ("behind" in m ==> m["behind"].Int?)
    && ("status" in m ==> m["status"].Text?)
    && ("ts" in m ==> m["ts"].Int?)
  }

  /** The two parsers agree on regular values, and differ on an integer lag sent by the driver. */
  lemma ParsersAgree(root: map<string, Value>)
    ensures Regular(root) ==> ParseText(root) == ParseMap(root)
    ensures "memgraph" in root && root["memgraph"].Object? && "behind" in root["memgraph"].fields
            && root["memgraph"].fields["behind"].Int64? && root["memgraph"].fields["behind"].n >= 0
            ==> ParseText(root) != ParseMap(root)
  {
  }

  // -- Judging the cluster -------------------------------------------------------------------

  predicate IsHealthy(r: ReplicaInfo) {
    r.info.Some? && r.info.value.healthy
  }

  /** Nothing short of manual intervention brings such a replica back, so it is not waited for. */
  predicate Unhealable(r: ReplicaInfo) {
    r.info.None? || r.info.value.status == "diverged" || r.info.value.status == "malformed"
  }

  /** An async replica still replicating is tolerated at the timestamp of a healthy strict replica. */
  predicate Tolerated(r: ReplicaInfo, all: seq<ReplicaInfo>) {
    && r.mode == Async && r.info.Some? && r.info.value.status == "replicating" && r.info.value.behind >= 0
    && exists q | q in all ::
         !Unhealable(q) && q.mode == StrictSync && IsHealthy(q) && q.info.value.ts == r.info.value.ts
  }

  predicate ClusterHealthy(all: seq<ReplicaInfo>) {
    forall r | r in all && !Unhealable(r) :: IsHealthy(r) || Tolerated(r, all)
  }

  /** isHealthy on the cached list: filter, then judge what is left, each against all the others. */
  method CheckHealth(all: seq<ReplicaInfo>) returns (ok: bool)
    ensures ok <==> ClusterHealthy(all)
  {
    var healable: seq<ReplicaInfo> := [];
    for i := 0 to |all|
      invariant forall r :: r in healable <==> r in all[..i] && !Unhealable(r)
    {
      var info := all[i].info;
      if info.Some? && info.value.status != "diverged" && info.value.status != "malformed" {
        healable := healable + [all[i]];
      }
    }
    assert all[..|all|] == all;
    for i := 0 to |healable|
      invariant forall r | r in healable[..i] :: IsHealthy(r) || Tolerated(r, all)
    {
      var r := healable[i];
      assert r in healable;
      if !r.info.value.healthy {
        var matching := false;
        if r.mode == Async && r.info.value.status == "replicating" && r.info.value.behind >= 0 {
          var k := 0;
          while k < |healable| && !matching
            invariant k <= |healable|
            invariant matching ==> Tolerated(r, all)
            invariant !matching ==> forall q | q in healable[..k] ::
                        !(q.mode == StrictSync && IsHealthy(q) && q.info.value.ts == r.info.value.ts)
          {
            var q := healable[k];
            assert q in healable;
            matching := q.mode == StrictSync && q.info.value.healthy && q.info.value.ts == r.info.value.ts;
            k := k + 1;
          }
        }
        if !matching {
          return false;
        }
      }
    }
    ok := true;
  }

  /** The failover gate asks every replica to be ready; with no negative lag that is healthy too. */
  lemma GateImpliesHealthy(all: seq<ReplicaInfo>)
    requires forall r | r in all :: WellParsed(r) && Ready(r)
    ensures ClusterHealthy(all) <==> forall r | r in all && r.info.Some? :: r.info.value.behind >= 0
  {
    forall r | r in all
      ensures !Tolerated(r, all) && !Unhealable(r) && (IsHealthy(r) <==> r.info.value.behind >= 0)
    {
    }
  }
}

/** The choice of a replica for the read gateway: the highest pod name in string order. */
module Selection {
  import opened Common
  import opened Naming
  import opened ReplicaStatus

  /** Go's order on strings. */
  predicate Less(a: string, b: string) {
    b != [] && (a == [] || a[0] < b[0] || (a[0] == b[0] && Less(a[1..], b[1..])))
  }

  lemma {:induction false} LessTrichotomy(a: string, b: string)
    ensures Less(a, b) || a == b || Less(b, a)
    ensures !(Less(a, b) && Less(b, a)) && !Less(a, a)
    decreases |a|
  {
    if a != [] {
      LessTrichotomy(a[1..], a[1..]);
      if b != [] && a[0] == b[0] {
        LessTrichotomy(a[1..], b[1..]);
        assert a[1..] == b[1..] ==> a == [a[0]] + a[1..] == [b[0]] + b[1..] == b;
      }
    }
  }

  lemma {:induction false} LessTransitive(a: string, b: string, c: string)
    requires Less(a, b) && Less(b, c)
    ensures Less(a, c)
    decreases |a|
  {
    if a != [] && a[0] == b[0] && b[0] == c[0] {
      LessTransitive(a[1..], b[1..], c[1..]);
    }
  }

  lemma {:induction false} LessAfterPrefix(p: string, a: string, b: string)
    ensures Less(p + a, p + b) <==> Less(a, b)
    decreases |p|
  {
    if p == [] {
      assert p + a == a && p + b == b;
    } else {
      assert (p + a)[1..] == p[1..] + a && (p + b)[1..] == p[1..] + b;
      LessAfterPrefix(p[1..], a, b);
    }
  }

  // -- Selection ---------------------------------------------------------------------------------

  /** A node of the cluster as the selection sees it: its name, whether the informer cache has it as a
      ready pod, and the role it reports, if it reports one. */
  datatype Candidate = Candidate(name: string, ready: bool, role: Option<Role>)

  predicate Eligible(c: Candidate, main: string) {
    c.name != main && c.ready && c.role == Some(Replica)
  }

  predicate Descending(s: seq<Candidate>) {
    forall i, j | 0 <= i < j < |s| :: !Less(s[i].name, s[j].name)
  }

  /** Sorts by name, highest first. */
  method SortDescending(s: seq<Candidate>) returns (sorted: seq<Candidate>)
    ensures multiset(sorted) == multiset(s) && Descending(sorted)
  {
    sorted := [];
    for i := 0 to |s|
      invariant multiset(sorted) == multiset(s[..i]) && Descending(sorted)
    {
      sorted := Insert(sorted, s[i]);
      assert s[..i + 1] == s[..i] + [s[i]];
    }
    assert s[..|s|] == s;
  }

  method Insert(sorted: seq<Candidate>, c: Candidate) returns (more: seq<Candidate>)
    requires Descending(sorted)
    ensures Descending(more) && multiset(more) == multiset(sorted) + multiset{c}
  {
    var k := 0;
    while k < |sorted| && !Less(sorted[k].name, c.name)
      invariant 0 <= k <= |sorted|
      invariant forall j | 0 <= j < k :: !Less(sorted[j].name, c.name)
    {
      k := k + 1;
    }
    InsertKeepsOrder(sorted, k, c);
    more := sorted[..k] + [c] + sorted[k..];
    hide Descending;
    assert sorted == sorted[..k] + sorted[k..];
  }

  lemma InsertKeepsOrder(s: seq<Candidate>, k: nat, c: Candidate)
    requires Descending(s) && k <= |s|
    requires forall j | 0 <= j < k :: !Less(s[j].name, c.name)
    requires k < |s| ==> Less(s[k].name, c.name)
    ensures Descending(s[..k] + [c] + s[k..])
  {
    forall j | k <= j < |s|
      ensures !Less(c.name, s[j].name)
    {
      LessTrichotomy(s[k].name, c.name);
      if j > k && Less(c.name, s[j].name) {
        LessTransitive(s[k].name, c.name, s[j].name);
      }
    }
  }

  /** `best` is the eligible node with the highest name; there is none only if nothing is eligible. */
  ghost predicate IsBest(nodes: seq<Candidate>, main: string, best: Option<Candidate>) {
    if best.None? then forall c | c in nodes :: !Eligible(c, main)
    else
      && best.value in nodes && Eligible(best.value, main)
      && forall c | c in nodes && Eligible(c, main) :: !Less(best.value.name, c.name)
  }

  /** `nodes` is the cluster's map in whatever order the iteration gives. */
  method SelectBestReplica(base: string, target: Option<nat>, nodes: seq<Candidate>)
    returns (best: Option<Candidate>)
    ensures target.None? ==> best.None?
    ensures target.Some? ==> IsBest(nodes, PodName(base, target.value), best)
  {
    if target.None? {
      return None;
    }
    var main := PodName(base, target.value);
    var replicas := [];
    for i := 0 to |nodes|
      invariant forall c :: c in replicas <==> c in nodes[..i] && Eligible(c, main)
    {
      if nodes[i].name != main && nodes[i].ready && nodes[i].role == Some(Replica) {
        replicas := replicas + [nodes[i]];
      }
    }
    assert nodes[..|nodes|] == nodes;
    var sorted := SortDescending(replicas);
    forall c
      ensures c in replicas <==> c in sorted
    {
      assert c in multiset(replicas) <==> c in multiset(sorted);
    }
    if |sorted| > 0 {
      best := Some(sorted[0]);
      FirstIsHighest(sorted);
    } else {
      best := None;
    }
  }

  lemma FirstIsHighest(s: seq<Candidate>)
    requires s != [] && Descending(s)
    ensures forall c | c in s :: !Less(s[0].name, c.name)
  {
    LessTrichotomy(s[0].name, s[0].name);
  }

  // -- The SYNC replica is the last choice -------------------------------------------------------

  lemma {:induction false} DecimalLead(k: nat)
    ensures Decimal(k) != [] && IsDigit(Decimal(k)[0])
    ensures k >= 1 ==> Decimal(k)[0] >= '1'
    ensures k >= 10 ==> |Decimal(k)| > 1
    decreases k
  {
    if k >= 10 {
      DecimalLead(k / 10);
    }
  }

  /** The decimal of every number from 2 on sorts above "0" and "1". */
  lemma EligibleOrdinalsSortLow(e: nat, k: nat)
    requires e <= 1 < k
    ensures Less(Decimal(e), Decimal(k))
  {
    DecimalLead(k);
    assert Decimal(e)[1..] == [];
    if k < 10 {
      assert Decimal(k)[0] >= '2';
    }
  }

  ghost predicate PodsOf(base: string, nodes: seq<Candidate>) {
    forall c | c in nodes :: exists i: nat :: c.name == PodName(base, i)
  }

  /** For any number of pods, the target main is never chosen; and the SYNC pod, the other one of 0 and
      1, is chosen exactly if it is eligible and no pod but it is. */
  lemma SyncReplicaIsLastChoice(base: string, target: nat, nodes: seq<Candidate>, best: Option<Candidate>)
    requires target <= 1 && PodsOf(base, nodes) && IsBest(nodes, PodName(base, target), best)
    ensures best.Some? ==> best.value.name != PodName(base, target)
    ensures var main, sync := PodName(base, target), PodName(base, 1 - target);
            best.Some? && best.value.name == sync <==>
              && (exists c :: c in nodes && Eligible(c, main))
              && forall c | c in nodes && Eligible(c, main) :: c.name == sync
  {
    var main, sync := PodName(base, target), PodName(base, 1 - target);
    if best.Some? && best.value.name == sync {
      forall c | c in nodes && Eligible(c, main)
        ensures c.name == sync
      {
        var i: nat :| c.name == PodName(base, i);
        PodNamesDistinct(base, i, target);
        if i > 1 {
          EligibleOrdinalsSortLow(1 - target, i);
          LessAfterPrefix(base + "-", Decimal(1 - target), Decimal(i));
          assert false;
        }
      }
    }
  }

  // -- The highest ordinal is chosen among at most ten pods --------------------------------------

  /** Among n pods, a higher ordinal always has the higher name. */
  ghost predicate OrdinalsAgreeWithNames(base: string, n: nat) {
    forall i: nat, j: nat | i < j < n :: Less(PodName(base, i), PodName(base, j))
  }

  lemma HighestOrdinalIff(base: string, n: nat)
    ensures OrdinalsAgreeWithNames(base, n) <==> n <= 10
  {
    if n <= 10 {
      forall i: nat, j: nat | i < j < n
        ensures Less(PodName(base, i), PodName(base, j))
      {
        LessAfterPrefix(base + "-", Decimal(i), Decimal(j));
      }
    } else {
      assert Decimal(10)[0] == '1' && Decimal(9)[0] == '9' by { assert Decimal(10 / 10) == "1"; }
      LessAfterPrefix(base + "-", Decimal(9), Decimal(10));
      assert !Less(PodName(base, 9), PodName(base, 10));
    }
  }

  /** With at most ten pods the choice is the eligible pod with the highest ordinal. */
  lemma TenPodsHighestOrdinal(base: string, target: nat, nodes: seq<Candidate>, best: Option<Candidate>,
                              i: nat, j: nat)
    requires IsBest(nodes, PodName(base, target), best) && best.Some? && best.value.name == PodName(base, i)
    requires i < 10 && j < 10
    requires exists c :: c in nodes && Eligible(c, PodName(base, target)) && c.name == PodName(base, j)
    ensures j <= i
  {
    HighestOrdinalIff(base, 10);
  }
}

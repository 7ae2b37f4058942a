/** Pod names, their ordinals and the replica names made from them. */
module Naming {
  import opened Common

  function Digit(d: nat): char
    requires d < 10
  {
    "0123456789"[d]
  }

  predicate IsDigit(c: char) {
    '0' <= c <= '9'
  }

  function DigitValue(c: char): nat
    requires IsDigit(c)
  {
    (c - '0') as nat
  }

  predicate AllDigits(text: string) {
    forall c | c in text :: IsDigit(c)
  }

  /** The `%d` of a natural number. */
  function Decimal(n: nat): string {
    if n < 10 then [Digit(n)] else Decimal(n / 10) + [Digit(n % 10)]
  }

  /** The value of a string of digits. */
  function Value(text: string): nat
    requires AllDigits(text)
  {
    if text == [] then 0 else Value(text[..|text| - 1]) * 10 + DigitValue(text[|text| - 1])
  }

  function PodName(base: string, index: nat): string {
    base + "-" + Decimal(index)
  }

  // -- Ordinals ----------------------------------------------------------------------------------

  const MAX_INT: int := 0x7fff_ffff_ffff_ffff

  /** strconv.Atoi for a 64-bit int. */
  function Atoi(text: string): Option<int> {
    var signed := text != [] && (text[0] == '-' || text[0] == '+');
    var digits := if signed then text[1..] else text;
    if digits == [] || !AllDigits(digits) then None
    else
      var size: int := Value(digits);
      var value := if text[0] == '-' then -size else size;
      if -MAX_INT - 1 <= value <= MAX_INT then Some(value) else None
  }

  /** The text after the last dash; None if there is no dash. */
  function AfterLastDash(name: string): Option<string> {
    if name == [] then None
    else
      var rest := AfterLastDash(name[1..]);
      if rest.Some? then rest else if name[0] == '-' then Some(name[1..]) else None
  }

  function ExtractPodIndex(name: string): int {
    var suffix := AfterLastDash(name);
    if suffix.None? then -1
    else if Atoi(suffix.value).None? then -1 else Atoi(suffix.value).value
  }

  lemma {:induction false} DecimalIsNumeral(n: nat)
    ensures Decimal(n) != [] && AllDigits(Decimal(n)) && Value(Decimal(n)) == n
    decreases n
  {
    if n >= 10 {
      DecimalIsNumeral(n / 10);
      assert Decimal(n)[..|Decimal(n)| - 1] == Decimal(n / 10);
    } else {
      assert Decimal(n)[..0] == [];
    }
  }

  lemma {:induction false} LastDashFound(front: string, suffix: string)
    requires '-' !in suffix
    ensures AfterLastDash(front + "-" + suffix) == Some(suffix)
    decreases |front|
  {
    var name := front + "-" + suffix;
    if front == [] {
      assert name[1..] == suffix;
      NoDash(suffix);
    } else {
      assert name[1..] == front[1..] + "-" + suffix;
      LastDashFound(front[1..], suffix);
    }
  }

  lemma {:induction false} NoDash(text: string)
    requires '-' !in text
    ensures AfterLastDash(text) == None
    decreases |text|
  {
    if text != [] {
      NoDash(text[1..]);
    }
  }

  /** The ordinal of a pod is recovered from its name, whatever dashes the StatefulSet's name has. */
  lemma PodIndexRoundTrip(base: string, index: nat)
    requires index <= MAX_INT
    ensures ExtractPodIndex(PodName(base, index)) == index
  {
    DecimalIsNumeral(index);
    LastDashFound(base, Decimal(index));
    assert Decimal(index)[0] in Decimal(index);
  }

  /** A decimal is read with or without a sign, if it fits. */
  lemma AtoiReads(n: nat)
    ensures Atoi(Decimal(n)) == (if n <= MAX_INT then Some(n) else None) == Atoi("+" + Decimal(n))
    ensures Atoi("-" + Decimal(n)) == if n <= MAX_INT + 1 then Some(-(n as int)) else None
  {
    DecimalIsNumeral(n);
    hide Decimal, Value, AllDigits;
    assert Decimal(n)[0] in Decimal(n) && IsDigit(Decimal(n)[0]) by { FirstIsDigit(Decimal(n)); }
    assert ("+" + Decimal(n))[1..] == Decimal(n) && ("-" + Decimal(n))[1..] == Decimal(n);
  }

  lemma FirstIsDigit(text: string)
    requires text != "" && AllDigits(text)
    ensures IsDigit(text[0])
  {
    assert text[0] in text;
  }

  /** Nothing but a sign and digits is read, and not without a digit. */
  lemma AtoiRefuses(text: string)
    ensures text != "" && !AllDigits(text[1..]) ==> Atoi(text).None?
    ensures text != "" && text[0] != '+' && text[0] != '-' && !IsDigit(text[0]) ==> Atoi(text).None?
    ensures Atoi("").None? && Atoi("+").None? && Atoi("-").None?
  {
    hide Value;
    if text != "" {
      assert text[0] in text && forall c | c in text[1..] :: c in text;
    }
  }

  /** A name without a dash, or with something else than a number after its last dash, has no ordinal. */
  lemma NoPodIndex(base: string, suffix: string)
    requires '-' !in suffix
    ensures ExtractPodIndex(suffix) == -1
    ensures ExtractPodIndex(base + "-" + suffix) == if Atoi(suffix).Some? then Atoi(suffix).value else -1
  {
    NoDash(suffix);
    LastDashFound(base, suffix);
  }

  lemma PodNamesDistinct(base: string, i: nat, j: nat)
    ensures PodName(base, i) == PodName(base, j) <==> i == j
  {
    DecimalIsNumeral(i);
    DecimalIsNumeral(j);
    assert PodName(base, i)[|base| + 1..] == Decimal(i);
    assert PodName(base, j)[|base| + 1..] == Decimal(j);
  }

  // -- Replica names -----------------------------------------------------------------------------

  function Underscored(c: char): char {
    if c == '-' then '_' else c
  }

  /** Every dash of a pod name becomes an underscore, in its place. */
  predicate IsReplicaName(name: string, replica: string) {
    |replica| == |name| && forall i | 0 <= i < |name| :: replica[i] == Underscored(name[i])
  }

  method GetReplicaName(name: string) returns (result: string)
    ensures IsReplicaName(name, result)
  {
    result := "";
    for i := 0 to |name|
      invariant IsReplicaName(name[..i], result)
    {
      result := result + [Underscored(name[i])];
    }
    assert name[..|name|] == name;
  }

  /** The letters, digits and hyphens of section 2.1 of RFC 1123, with the dots that join labels. */
  predicate IsHostName(name: string) {
    forall c | c in name :: IsDigit(c) || 'a' <= c <= 'z' || 'A' <= c <= 'Z' || c == '-' || c == '.'
  }

  /** No two host names get the same replica name. */
  lemma ReplicaNamesDistinct(a: string, b: string, ra: string, rb: string)
    requires IsHostName(a) && IsHostName(b) && IsReplicaName(a, ra) && IsReplicaName(b, rb)
    ensures ra == rb <==> a == b
  {
    if ra == rb {
      forall i | 0 <= i < |a|
        ensures a[i] == b[i]
      {
        assert a[i] in a && b[i] in b;
        assert ra[i] == rb[i];
      }
    }
    if a == b {
      assert ra == rb;
    }
  }

  /** Two pods of one StatefulSet get different replica names, whatever its name. */
  lemma PodReplicaNamesDistinct(base: string, i: nat, j: nat, ri: string, rj: string)
    requires IsReplicaName(PodName(base, i), ri) && IsReplicaName(PodName(base, j), rj)
    ensures ri == rj <==> i == j
  {
    DecimalIsNumeral(i);
    DecimalIsNumeral(j);
    SuffixKept(base, i, ri);
    SuffixKept(base, j, rj);
    if i == j {
      assert ri == rj;
    }
  }

  /** The ordinal's digits survive in the replica name. */
  lemma SuffixKept(base: string, i: nat, replica: string)
    requires IsReplicaName(PodName(base, i), replica)
    ensures |replica| > |base| && replica[|base| + 1..] == Decimal(i)
  {
    DecimalIsNumeral(i);
    var name := PodName(base, i);
    forall k | 0 <= k < |Decimal(i)|
      ensures replica[|base| + 1 + k] == Decimal(i)[k]
    {
      assert name[|base| + 1 + k] == Decimal(i)[k];
      assert Decimal(i)[k] in Decimal(i);
    }
  }
}

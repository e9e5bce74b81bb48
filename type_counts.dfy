/** `eventos_por_tipo` of lambda.py: a Python dict from event type to count,
    kept as its list of items in insertion order (the order in which
    `eventos_por_tipo.items()` later yields them). */
module TypeCounts {
  import opened Json

  type Counts = seq<(Value, nat)>

  /** Python dict-key equality: numbers compare by value (`1 == 1.0 == True`),
      everything else structurally. */
  predicate SameKey(a: Value, b: Value)
  {
    if AsNumber(a).Some? && AsNumber(b).Some? then AsNumber(a) == AsNumber(b) else a == b
  }

  /** No two items share a key, as in any dict. */
  predicate DistinctTypes(d: Counts)
  {
    forall j, j' :: 0 <= j < j' < |d| ==> !SameKey(d[j].0, d[j'].0)
  }

  /** `eventos_por_tipo.get(t, 0)` */
  function CountOf(d: Counts, t: Value): nat
  {
    if d == [] then 0
    else if SameKey(d[0].0, t) then d[0].1
    else CountOf(d[1..], t)
  }

  /** The sum of all counts. */
  function Total(d: Counts): nat
  {
    if d == [] then 0 else d[0].1 + Total(d[1..])
  }

  /** `eventos_por_tipo[t] = eventos_por_tipo.get(t, 0) + 1`: a known type
      keeps its place (and its original key); a new one is appended with 1. */
  function Bump(d: Counts, t: Value): (r: Counts)
    ensures |r| == |d| || |r| == |d| + 1
    ensures forall j :: 0 <= j < |d| ==> r[j].0 == d[j].0
    ensures |r| == |d| + 1 <==> forall j :: 0 <= j < |d| ==> !SameKey(d[j].0, t)
    ensures |r| == |d| + 1 ==> r[|d|] == (t, 1)
    ensures CountOf(r, t) == CountOf(d, t) + 1
    ensures forall u :: !SameKey(u, t) ==> CountOf(r, u) == CountOf(d, u)
    ensures Total(r) == Total(d) + 1
  {
    if d == [] then [(t, 1)]
    else if SameKey(d[0].0, t) then [(d[0].0, d[0].1 + 1)] + d[1..]
    else
      var rest := Bump(d[1..], t);
      var r := [d[0]] + rest;
      assert r[1..] == rest;
      r
  }

  /** Bumping keeps the keys distinct. */
  lemma BumpKeepsDistinct(d: Counts, t: Value)
    requires DistinctTypes(d)
    ensures DistinctTypes(Bump(d, t))
  {
    var r := Bump(d, t);
    forall j, j' | 0 <= j < j' < |r| ensures !SameKey(r[j].0, r[j'].0) {
      if j' == |d| {
        assert !SameKey(d[j].0, t);
      }
    }
  }

  /** In a dict, the count of a key is the count stored beside it. */
  lemma {:induction false} CountOfStored(d: Counts, j: nat)
    requires DistinctTypes(d) && j < |d|
    ensures CountOf(d, d[j].0) == d[j].1
  {
    if j > 0 {
      assert !SameKey(d[0].0, d[j].0);
      CountOfStored(d[1..], j - 1);
    }
  }
}

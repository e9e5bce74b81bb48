/** Cutting the enriched records into consecutive slices of at most 400, as the
    delivery loop `for i in range(0, len(out), 400): send(out[i:i+400])` does
    (400 is the slice size the handler uses). */
module Chunking {

  const MaxBatch: nat := 400

  /** `ceil(n / 400)` */
  function BatchCount(n: nat): nat
  {
    (n + MaxBatch - 1) / MaxBatch
  }

  /** Slice `k` exists exactly when it starts before the end of the list. */
  lemma SliceExists(n: nat, k: nat)
    ensures k < BatchCount(n) <==> k * MaxBatch < n
  {
  }

  /** The slices laid end to end. */
  function Flatten<T>(cs: seq<seq<T>>): seq<T>
  {
    if cs == [] then [] else cs[0] + Flatten(cs[1..])
  }

  /** The slices the delivery loop sends: `ceil(|s| / 400)` of them, none
      empty, none longer than 400, and together exactly `s` in order. */
  function Chunks<T>(s: seq<T>): (cs: seq<seq<T>>)
    ensures |cs| == BatchCount(|s|)
    ensures forall k :: 0 <= k < |cs| ==> 0 < |cs[k]| <= MaxBatch
    ensures Flatten(cs) == s
    decreases |s|
  {
    if |s| == 0 then []
    else if |s| <= MaxBatch then
      assert Flatten([s]) == s + Flatten<T>([]);
      [s]
    else
      var rest := Chunks(s[MaxBatch..]);
      var cs := [s[..MaxBatch]] + rest;
      assert cs[1..] == rest;
      assert s == s[..MaxBatch] + s[MaxBatch..];
      cs
  }

  /** End of slice `k`: Python's `out[i:i+400]` stops at the end of the list. */
  function SliceEnd(n: nat, k: nat): nat
  {
    if (k + 1) * MaxBatch <= n then (k + 1) * MaxBatch else n
  }

  /** Slice `k` is `s[400*k : 400*k + 400]`. */
  lemma {:induction false} ChunkAt<T>(s: seq<T>, k: nat)
    requires k < |Chunks(s)|
    ensures k * MaxBatch < |s|
    ensures Chunks(s)[k] == s[k * MaxBatch .. SliceEnd(|s|, k)]
    decreases |s|
  {
    if |s| > MaxBatch && k > 0 {
      var t := s[MaxBatch..];
      ChunkAt(t, k - 1);
      assert Chunks(s)[k] == Chunks(t)[k - 1];
      assert t[(k - 1) * MaxBatch .. SliceEnd(|t|, k - 1)] == s[k * MaxBatch .. SliceEnd(|s|, k)];
    }
  }

  /** Every slice but the last is full. */
  lemma {:induction false} ChunksFullExceptLast<T>(s: seq<T>, k: nat)
    requires k + 1 < |Chunks(s)|
    ensures |Chunks(s)[k]| == MaxBatch
    decreases |s|
  {
    if k > 0 {
      ChunksFullExceptLast(s[MaxBatch..], k - 1);
    }
  }

  /** 850 records go out as 400, 400 and 50, in that order. */
  lemma ChunksOf850<T>(s: seq<T>)
    requires |s| == 850
    ensures |Chunks(s)| == 3
    ensures Chunks(s) == [s[..400], s[400..800], s[800..]]
  {
    var cs := Chunks(s);
    ChunkAt(s, 0);
    ChunkAt(s, 1);
    ChunkAt(s, 2);
    assert cs[0] == s[0..400];
    assert cs[1] == s[400..800];
    assert cs[2] == s[800..850];
    assert s[800..] == s[800..850];
    assert cs == [cs[0], cs[1], cs[2]];
  }
}

/** Bytes on a pipe, whole or in parts. */
module Pipes {
  newtype byte = b: int | 0 <= b < 256

  type Bytes = seq<byte>

  function Concat(parts: seq<Bytes>): Bytes {
    if |parts| == 0 then [] else Concat(parts[..|parts| - 1]) + parts[|parts| - 1]
  }

  lemma {:induction false} ConcatNext(parts: seq<Bytes>, k: nat)
    requires k < |parts|
    ensures Concat(parts[..k + 1]) == Concat(parts[..k]) + parts[k]
  {
    assert parts[..k + 1][..k] == parts[..k];
  }

  /** What comes before part k includes all of an earlier part. */
  lemma {:induction false} ConcatLength(parts: seq<Bytes>, i: nat, k: nat)
    requires i <= k <= |parts|
    ensures |Concat(parts[..i])| <= |Concat(parts[..k])|
    ensures i < k ==> |Concat(parts[..i])| + |parts[i]| <= |Concat(parts[..k])|
    decreases k
  {
    if i < k {
      ConcatLength(parts, i, k - 1);
      ConcatNext(parts, k - 1);
    }
  }

  predicate StartsWith(whole: Bytes, part: Bytes) {
    |part| <= |whole| && whole[..|part|] == part
  }

  lemma {:induction false} PartsBegin(parts: seq<Bytes>, n: nat)
    requires n <= |parts|
    ensures StartsWith(Concat(parts), Concat(parts[..n]))
    decreases |parts| - n
  {
    if n < |parts| {
      PartsBegin(parts, n + 1);
      ConcatNext(parts, n);
    } else {
      assert parts[..n] == parts;
    }
  }

  ghost function Quantity(counts: seq<nat>): nat {
    if |counts| == 0 then 0 else Quantity(counts[..|counts| - 1]) + counts[|counts| - 1]
  }

  lemma {:induction false} QuantityNext(counts: seq<nat>, i: nat)
    requires i < |counts|
    ensures Quantity(counts[..i + 1]) == Quantity(counts[..i]) + counts[i]
    ensures Quantity(counts[..i + 1]) <= Quantity(counts)
    decreases |counts| - i
  {
    assert counts[..i + 1][..i] == counts[..i];
    if i + 1 < |counts| {
      QuantityNext(counts, i + 1);
    } else {
      assert counts[..i + 1] == counts;
    }
  }
}

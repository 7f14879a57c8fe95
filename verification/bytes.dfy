/** Byte arrays and `concatUint8` (main.js:30-39). */
module Bytes {

  /** An element of a `Uint8Array`. */
  type byte = x: int | 0 <= x < 256

  /** `arrays.reduce((a, b) => a + b.length, 0)`: the sum of the lengths, left to right. */
  function TotalLength(arrays: seq<seq<byte>>): nat
  {
    if arrays == [] then 0
    else TotalLength(arrays[..|arrays| - 1]) + |arrays[|arrays| - 1]|
  }

  /** The inputs laid end to end, in order. */
  function Flatten(arrays: seq<seq<byte>>): (r: seq<byte>)
    ensures |r| == TotalLength(arrays)
  {
    if arrays == [] then []
    else Flatten(arrays[..|arrays| - 1]) + arrays[|arrays| - 1]
  }

  /** The running offset of `arrays[i]` is its start in the result: every byte of every
      input lands at that offset plus its own index. */
  lemma {:induction false} FlattenAt(arrays: seq<seq<byte>>, i: nat, j: nat)
    requires i < |arrays| && j < |arrays[i]|
    ensures TotalLength(arrays[..i]) + j < |Flatten(arrays)|
    ensures Flatten(arrays)[TotalLength(arrays[..i]) + j] == arrays[i][j]
  {
    var n := |arrays| - 1;
    if i < n {
      assert arrays[..n][..i] == arrays[..i];
      FlattenAt(arrays[..n], i, j);
    } else {
      assert arrays[..n] == arrays[..i];
    }
  }

  /** The prefix before `arrays[i]`, plus `arrays[i]` itself, fits in the total. */
  lemma {:induction false} PrefixFits(arrays: seq<seq<byte>>, i: nat)
    requires i < |arrays|
    ensures TotalLength(arrays[..i]) + |arrays[i]| <= TotalLength(arrays)
  {
    var n := |arrays| - 1;
    if i < n {
      assert arrays[..n][..i] == arrays[..i];
      PrefixFits(arrays[..n], i);
    } else {
      assert arrays[..n] == arrays[..i];
    }
  }

  /** Joining two arrays, as the decryption call does with ciphertext and tag. */
  lemma FlattenPair(a: seq<byte>, b: seq<byte>)
    ensures Flatten([a, b]) == a + b
  {
    assert [a, b][..1] == [a];
    assert [a][..0] == [];
  }

  /** `concatUint8(...arrays)`: sums the lengths, allocates the output, then copies each
      input at the running offset with `out.set(arr, offset)`. */
  method ConcatUint8(arrays: seq<seq<byte>>) returns (out: array<byte>)
    ensures out.Length == TotalLength(arrays)
    ensures out[..] == Flatten(arrays)
  {
    var total := 0;
    var k := 0;
    while k < |arrays|
      invariant 0 <= k <= |arrays|
      invariant total == TotalLength(arrays[..k])
    {
      assert arrays[..k + 1][..k] == arrays[..k];
      total := total + |arrays[k]|;
      k := k + 1;
    }
    assert arrays[..|arrays|] == arrays;
    out := new byte[total];
    var offset := 0;
    var i := 0;
    while i < |arrays|
      invariant 0 <= i <= |arrays|
      invariant out.Length == total == TotalLength(arrays)
      invariant offset == TotalLength(arrays[..i]) <= total
      invariant out[..offset] == Flatten(arrays[..i])
    {
      var arr := arrays[i];
      PrefixFits(arrays, i);
      forall j | 0 <= j < |arr| {
        out[offset + j] := arr[j];
      }
      assert arrays[..i + 1][..i] == arrays[..i];
      assert out[..offset + |arr|] == out[..offset] + arr;
      offset := offset + |arr|;
      i := i + 1;
    }
    assert out[..] == out[..offset];
  }
}

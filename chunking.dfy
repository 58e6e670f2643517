/**
 * `chunkArray` of `calculateIncomeAndSpending.js`: the splitter that cuts the
 * tracked accounts into batches of 100 before each batch is processed.
 */
module Chunking {

  /** The elements of `chunks`, in order. */
  function Concat<T>(chunks: seq<seq<T>>): seq<T> {
    if chunks == [] then [] else chunks[0] + Concat(chunks[1..])
  }

  function Min(a: int, b: int): int {
    if a <= b then a else b
  }

  /**
   * The chunks of `s`: consecutive slices of `size` elements, the last one
   * holding whatever is left.
   */
  function Chunks<T>(s: seq<T>, size: nat): seq<seq<T>>
    requires size > 0
    decreases |s|
  {
    if s == [] then []
    else
      var cut := Min(size, |s|);
      [s[..cut]] + Chunks(s[cut..], size)
  }

  /** Gluing the chunks back together gives the input. */
  lemma {:induction false} ChunksConcat<T>(s: seq<T>, size: nat)
    requires size > 0
    ensures Concat(Chunks(s, size)) == s
    decreases |s|
  {
    if s != [] {
      var cut := Min(size, |s|);
      ChunksConcat(s[cut..], size);
      assert Concat(Chunks(s, size)) == s[..cut] + Concat(Chunks(s[cut..], size));
    }
  }

  /** Every chunk is non-empty and holds at most `size` elements; all but the last hold exactly `size`. */
  lemma {:induction false} ChunkSizes<T>(s: seq<T>, size: nat)
    requires size > 0
    ensures forall j :: 0 <= j < |Chunks(s, size)| ==> 0 < |Chunks(s, size)[j]| <= size
    ensures forall j :: 0 <= j < |Chunks(s, size)| - 1 ==> |Chunks(s, size)[j]| == size
    decreases |s|
  {
    if s != [] {
      var cut := Min(size, |s|);
      ChunkSizes(s[cut..], size);
      if cut < size {
        assert s[cut..] == [];
      }
    }
  }

  /**
   * There are ceil(|s| / size) chunks: the fewest chunks of `size` elements
   * that hold all of `s`.
   */
  lemma {:induction false} ChunkCount<T>(s: seq<T>, size: nat)
    requires size > 0
    ensures (|Chunks(s, size)| - 1) * size < |s| <= |Chunks(s, size)| * size
    decreases |s|
  {
    if s != [] {
      var cut := Min(size, |s|);
      var rest := |Chunks(s[cut..], size)|;
      ChunkCount(s[cut..], size);
      assert (rest + 1) * size == rest * size + size;
    }
  }

  lemma ChunksStep<T>(s: seq<T>, i: nat, size: nat)
    requires size > 0 && i < |s|
    ensures Chunks(s[i..], size) == [s[i..Min(i + size, |s|)]] + Chunks(s[Min(i + size, |s|)..], size)
  {
    var cut := Min(size, |s| - i);
    assert s[i..][..cut] == s[i..i + cut];
    assert s[i..][cut..] == s[i + cut..];
  }

  /**
   * `chunkArray(items, chunkSize)`: the slices `items[i .. i + chunkSize]` for
   * `i = 0, chunkSize, 2 * chunkSize, ...` below the length. The loop only ends
   * for a positive chunk size.
   */
  method ChunkArray<T>(items: seq<T>, chunkSize: nat) returns (chunks: seq<seq<T>>)
    requires chunkSize > 0
    ensures chunks == Chunks(items, chunkSize)
    ensures Concat(chunks) == items
    ensures forall j :: 0 <= j < |chunks| ==> 0 < |chunks[j]| <= chunkSize
    ensures forall j :: 0 <= j < |chunks| - 1 ==> |chunks[j]| == chunkSize
    ensures (|chunks| - 1) * chunkSize < |items| <= |chunks| * chunkSize
  {
    chunks := [];
    var i := 0;
    while i < |items|
      invariant 0 <= i
      invariant chunks + Chunks(items[Min(i, |items|)..], chunkSize) == Chunks(items, chunkSize)
      decreases |items| - i
    {
      ChunksStep(items, i, chunkSize);
      chunks := chunks + [items[i..Min(i + chunkSize, |items|)]];
      i := i + chunkSize;
    }
    assert items[Min(i, |items|)..] == [];
    ChunksConcat(items, chunkSize);
    ChunkSizes(items, chunkSize);
    ChunkCount(items, chunkSize);
  }
}

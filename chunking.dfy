/** `<[T]>::chunks`: splitting a payload into consecutive fixed-size pieces, as
    `stream_cloud_data` does in packages/src/cloud_storage_bridge.rs. */
module Chunking {
  import opened Numeric

  /** The pieces laid end to end. */
  function Concat<T>(pieces: seq<seq<T>>): seq<T> {
    if pieces == [] then [] else pieces[0] + Concat(pieces[1..])
  }

  lemma MulStep(q: nat, size: nat)
    ensures (q + 1) * size == q * size + size
  {
  }

  lemma MulMonotone(a: nat, b: nat, size: nat)
    requires a <= b
    ensures a * size <= b * size
  {
  }

  /** A quotient is determined by any decomposition with a remainder below the divisor. */
  lemma DivisionByParts(x: nat, size: nat, q: nat, r: nat)
    requires size > 0 && r < size && x == q * size + r
    ensures x / size == q
  {
    var q', r' := x / size, x % size;
    assert x == q' * size + r';
    if q' < q {
      MulMonotone(q' + 1, q, size);
      MulStep(q', size);
    } else if q' > q {
      MulMonotone(q + 1, q', size);
      MulStep(q, size);
    }
  }

  /** Adding one more chunk of `size` elements adds exactly one to the ceiling quotient. */
  lemma CeilStep(rest: nat, size: nat)
    requires size > 0
    ensures (rest + size + size - 1) / size == (rest + size - 1) / size + 1
  {
    var a := rest + size - 1;
    var q, r := a / size, a % size;
    assert a == q * size + r && 0 <= r < size;
    MulStep(q, size);
    DivisionByParts(a + size, size, q + 1, r);
  }

  /** `data.chunks(size)`: consecutive chunks of exactly `size` elements, the last one shorter
      when `size` does not divide the length; no chunk is empty. */
  function Chunks<T>(data: seq<T>, size: nat): (chunks: seq<seq<T>>)
    requires size > 0
    ensures Concat(chunks) == data
    ensures chunks == [] <==> data == []
    decreases |data|
  {
    if |data| == 0 then []
    else if |data| <= size then [data]
    else
      var head, tail := data[..size], data[size..];
      var rest := Chunks(tail, size);
      var chunks := [head] + rest;
      assert chunks[1..] == rest;
      assert head + tail == data;
      chunks
  }

  /** No chunk is empty or longer than `size`, and every chunk but the last has exactly `size` elements. */
  lemma {:induction false} ChunkSizes<T>(data: seq<T>, size: nat)
    requires size > 0
    ensures forall k :: 0 <= k < |Chunks(data, size)| ==> 0 < |Chunks(data, size)[k]| <= size
    ensures forall k :: 0 <= k < |Chunks(data, size)| - 1 ==> |Chunks(data, size)[k]| == size
    decreases |data|
  {
    if |data| > size {
      var tail := data[size..];
      ChunkSizes(tail, size);
      assert Chunks(data, size) == [data[..size]] + Chunks(tail, size);
    }
  }

  /** There are ceil(|data| / size) chunks. */
  lemma {:induction false} ChunkCount<T>(data: seq<T>, size: nat)
    requires size > 0
    ensures |Chunks(data, size)| == (|data| + size - 1) / size
    decreases |data|
  {
    if |data| == 0 {
      DivisionByParts(size - 1, size, 0, size - 1);
    } else if |data| <= size {
      DivisionByParts(|data| + size - 1, size, 1, |data| - 1);
    } else {
      var tail := data[size..];
      ChunkCount(tail, size);
      assert Chunks(data, size) == [data[..size]] + Chunks(tail, size);
      CeilStep(|tail|, size);
      assert |tail| + size + size - 1 == |data| + size - 1;
    }
  }

  /** The chunks of what follows position `i` are the chunk starting at `i` and then the chunks
      of what follows it. */
  lemma ChunksFrom<T>(data: seq<T>, size: nat, i: nat)
    requires size > 0 && i < |data|
    ensures Chunks(data[i..], size)
            == [data[i..Min(i + size, |data|)]] + Chunks(data[Min(i + size, |data|)..], size)
  {
    var rest, end := data[i..], Min(i + size, |data|);
    if |rest| > size {
      assert rest[..size] == data[i..end] && rest[size..] == data[end..];
    } else {
      assert rest == data[i..end] && data[end..] == [];
    }
  }

  /** Where chunk `k` starts: `k` whole chunks in, written without multiplication. */
  function Offset(k: nat, size: nat): nat {
    if k == 0 then 0 else Offset(k - 1, size) + size
  }

  lemma {:induction false} OffsetIsProduct(k: nat, size: nat)
    ensures Offset(k, size) == k * size
  {
    if k > 0 {
      OffsetIsProduct(k - 1, size);
      MulStep(k - 1, size);
    }
  }

  /** Chunk `k` of what follows position `i` is the slice of `data` from `i` plus the chunk's
      offset up to `size` further on or the end. */
  lemma {:induction false} ChunkAtOffset<T>(data: seq<T>, size: nat, i: nat, k: nat)
    requires size > 0 && i <= |data| && k < |Chunks(data[i..], size)|
    ensures i + Offset(k, size) < |data|
    ensures Chunks(data[i..], size)[k] == data[i + Offset(k, size)..Min(i + Offset(k, size) + size, |data|)]
    decreases k
  {
    assert data[i..] != [];
    ChunksFrom(data, size, i);
    var end := Min(i + size, |data|);
    if k > 0 {
      ChunkAtOffset(data, size, end, k - 1);
      assert end == i + size;
    }
  }

  /** Chunk `k` is the slice of `data` from `k * size` up to `size` further on or the end. */
  lemma ChunkAt<T>(data: seq<T>, size: nat, k: nat)
    requires size > 0 && k < |Chunks(data, size)|
    ensures k * size < |data|
    ensures Chunks(data, size)[k] == data[k * size..Min(k * size + size, |data|)]
  {
    assert data[0..] == data;
    ChunkAtOffset(data, size, 0, k);
    OffsetIsProduct(k, size);
  }

  /** Example: ten elements in chunks of three. */
  lemma ChunksExample()
    ensures Chunks("abcdefghij", 3) == ["abc", "def", "ghi", "j"]
  {
    assert "abcdefghij"[..3] == "abc" && "abcdefghij"[3..] == "defghij";
    assert "defghij"[..3] == "def" && "defghij"[3..] == "ghij";
    assert "ghij"[..3] == "ghi" && "ghij"[3..] == "j";
    assert Chunks("j", 3) == ["j"];
    assert Chunks("ghij", 3) == ["ghi", "j"];
    assert Chunks("defghij", 3) == ["def", "ghi", "j"];
  }
}

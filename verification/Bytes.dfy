/** Byte strings, big-endian integers and the cutting of a byte string into chunks. */
module Bytes {

  type byte = b: int | 0 <= b < 256

  datatype Option<+T> = None | Some(value: T)

  const U16: int := 0x1_0000
  const U32: int := 0x1_0000_0000

  function Be16(n: int): (s: seq<byte>)
    requires 0 <= n < U16
    ensures |s| == 2
  {
    [n / 256, n % 256]
  }

  function Be32(n: int): (s: seq<byte>)
    requires 0 <= n < U32
    ensures |s| == 4
  {
    Be16(n / U16) + Be16(n % U16)
  }

  function FromBe16(s: seq<byte>): (n: int)
    requires |s| == 2
    ensures 0 <= n < U16
  {
    s[0] as int * 256 + s[1] as int
  }

  function FromBe32(s: seq<byte>): (n: int)
    requires |s| == 4
    ensures 0 <= n < U32
  {
    FromBe16(s[..2]) * U16 + FromBe16(s[2..])
  }

  lemma Be16RoundTrip(n: int)
    requires 0 <= n < U16
    ensures FromBe16(Be16(n)) == n
  {
  }

  lemma Be32RoundTrip(n: int)
    requires 0 <= n < U32
    ensures FromBe32(Be32(n)) == n
  {
  }

  lemma FromBe16RoundTrip(s: seq<byte>)
    requires |s| == 2
    ensures Be16(FromBe16(s)) == s
  {
  }

  lemma FromBe32RoundTrip(s: seq<byte>)
    requires |s| == 4
    ensures Be32(FromBe32(s)) == s
  {
  }

  /** Concatenation of a list of sequences. */
  function Flatten<T>(parts: seq<seq<T>>): (s: seq<T>) {
    if parts == [] then [] else parts[0] + Flatten(parts[1..])
  }

  /** Rounded-up quotient: the number of pieces of `size` bytes that hold `n` bytes. */
  function CeilDiv(n: nat, size: nat): nat
    requires size > 0
  {
    (n + size - 1) / size
  }

  /** A slice whose end may lie past the data, cut as Python does. */
  function Slice<T>(data: seq<T>, start: nat, end: nat): (piece: seq<T>)
    requires start <= |data| && start <= end
    ensures |piece| <= end - start
  {
    if end <= |data| then data[start..end] else data[start..]
  }

  /** All the pieces, in order; the last one may be short. */
  function Chunks<T>(data: seq<T>, size: nat): (pieces: seq<seq<T>>)
    requires size > 0
    decreases |data|
  {
    if |data| == 0 then []
    else if |data| <= size then [data]
    else [data[..size]] + Chunks(data[size..], size)
  }

  lemma CancelFactor(x: int, y: int, size: nat)
    requires size > 0 && x * size < y * size
    ensures x < y
  {
  }

  /** Euclidean division is the only quotient whose multiple leaves less than one divisor. */
  lemma QuotientIsUnique(a: nat, size: nat, q: nat)
    requires size > 0 && q * size <= a < q * size + size
    ensures a / size == q
  {
    var d := a / size;
    assert a == d * size + a % size;
    assert (q + 1) * size == q * size + size && (d + 1) * size == d * size + size;
    CancelFactor(d, q + 1, size);
    CancelFactor(q, d + 1, size);
  }

  lemma CeilDivStep(n: nat, size: nat)
    requires 0 < size < n
    ensures CeilDiv(n, size) == 1 + CeilDiv(n - size, size)
  {
    var q := CeilDiv(n - size, size);
    assert (q + 1) * size == q * size + size;
    QuotientIsUnique(n + size - 1, size, q + 1);
  }

  lemma CeilDivSmall(n: nat, size: nat)
    requires 0 < n <= size
    ensures CeilDiv(n, size) == 1
  {
  }

  lemma Regroup<T>(a: seq<T>, b: seq<T>, c: seq<T>)
    ensures a + (b + c) == a + b + c
  {
  }

  lemma FlattenFirst<T>(first: seq<T>, rest: seq<seq<T>>)
    ensures Flatten([first] + rest) == first + Flatten(rest)
  {
    assert ([first] + rest)[1..] == rest;
  }

  lemma {:induction false} ChunksFlatten<T>(data: seq<T>, size: nat)
    requires size > 0
    ensures Flatten(Chunks(data, size)) == data
    decreases |data|
  {
    if |data| <= size {
      assert |data| > 0 ==> Flatten([data]) == data + Flatten([]);
    } else {
      ChunksFlatten(data[size..], size);
      FlattenFirst(data[..size], Chunks(data[size..], size));
    }
  }

  lemma {:induction false} ChunksCount<T>(data: seq<T>, size: nat)
    requires size > 0
    ensures |Chunks(data, size)| == CeilDiv(|data|, size)
    ensures forall i :: 0 <= i < |Chunks(data, size)| ==> 0 < |Chunks(data, size)[i]| <= size
    decreases |data|
  {
    if 0 < |data| <= size {
      CeilDivSmall(|data|, size);
    } else if |data| > size {
      ChunksCount(data[size..], size);
      CeilDivStep(|data|, size);
    }
  }

  /** Cutting loses nothing and yields exactly the rounded-up number of non-empty pieces. */
  lemma ChunksRebuild<T>(data: seq<T>, size: nat)
    requires size > 0
    ensures Flatten(Chunks(data, size)) == data
    ensures |Chunks(data, size)| == CeilDiv(|data|, size)
    ensures forall i :: 0 <= i < |Chunks(data, size)| ==> 0 < |Chunks(data, size)[i]| <= size
  {
    ChunksFlatten(data, size);
    ChunksCount(data, size);
  }

  lemma SliceOfRest<T>(data: seq<T>, skip: nat, start: nat, end: nat)
    requires skip + start <= |data| && start <= end
    ensures Slice(data[skip..], start, end) == Slice(data, skip + start, skip + end)
  {
  }

  /** Piece `index` is the slice that starts `index * size` bytes in. */
  lemma {:induction false} ChunkAt<T>(data: seq<T>, size: nat, index: nat)
    requires size > 0 && index < |Chunks(data, size)|
    ensures 0 <= index * size < |data| && index * size <= (index + 1) * size
    ensures Chunks(data, size)[index] == Slice(data, index * size, (index + 1) * size)
    decreases index
  {
    if index > 0 {
      var rest := data[size..];
      assert Chunks(data, size)[1..] == Chunks(rest, size);
      ChunkAt(rest, size, index - 1);
      Multiples(size, index);
      SliceOfRest(data, size, (index - 1) * size, index * size);
    }
  }

  lemma Multiples(size: nat, index: nat)
    requires index > 0
    ensures index * size == size + (index - 1) * size && (index + 1) * size == size + index * size
  {
  }

  /** The pieces fit in `limit` slots exactly when the data fits in `limit` times the piece size. */
  lemma CeilDivBound(n: nat, size: nat, limit: nat)
    requires size > 0
    ensures CeilDiv(n, size) <= limit <==> n <= limit * size
  {
    var q := CeilDiv(n, size);
    assert q * size <= n + size - 1 < q * size + size;
    if q <= limit {
      assert q * size <= limit * size;
    } else {
      assert (limit + 1) * size <= q * size;
      assert (limit + 1) * size == limit * size + size;
    }
  }
}

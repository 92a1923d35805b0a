/** How an oversized write value is cut into pieces: consecutive runs of at most
    `size` elements, every run but the last exactly `size` long
    (js/BluetoothDevice.js:270-274, BluetoothDevice.js:117-124). */
module Chunking {

  /** The pieces `splice(0, size)` takes off `v`, in order. */
  function Chunks<T>(v: seq<T>, size: nat): seq<seq<T>>
    requires size > 0
    decreases |v|
  {
    if |v| == 0 then []
    else if |v| <= size then [v]
    else [v[..size]] + Chunks(v[size..], size)
  }

  function Concat<T>(pieces: seq<seq<T>>): seq<T>
  {
    if pieces == [] then [] else pieces[0] + Concat(pieces[1..])
  }

  /** One step of the cutting: the first piece is the first `min(size, |v|)`
      elements and the rest is the cutting of what remains. */
  lemma ChunksHead<T>(v: seq<T>, size: nat)
    requires size > 0 && |v| > 0
    ensures var n := if |v| <= size then |v| else size;
      Chunks(v, size) == [v[..n]] + Chunks(v[n..], size)
  {
    if |v| <= size {
      assert v[..|v|] == v;
      assert v[|v|..] == [];
    }
  }

  /** What remains after the first piece is cut into the remaining pieces. */
  lemma ChunksTail<T>(v: seq<T>, size: nat)
    requires size > 0 && |v| > 0
    ensures var n := if |v| <= size then |v| else size;
      && Chunks(v, size) != []
      && Chunks(v, size)[0] == v[..n]
      && Chunks(v[n..], size) == Chunks(v, size)[1..]
  {
    ChunksHead(v, size);
  }

  /** Nothing is cut from an empty value, and something from any other. */
  lemma ChunksEmpty<T>(v: seq<T>, size: nat)
    requires size > 0
    ensures Chunks(v, size) == [] <==> v == []
  {
  }

  /** The pieces put back together give the value. */
  lemma {:induction false} ChunksConcat<T>(v: seq<T>, size: nat)
    requires size > 0
    ensures Concat(Chunks(v, size)) == v
    decreases |v|
  {
    if |v| > size {
      ChunksConcat(v[size..], size);
      assert v[..size] + v[size..] == v;
    } else if |v| > 0 {
      assert Concat([v]) == v + Concat([]);
    }
  }

  lemma MulAtLeast(d: int, s: int)
    requires d >= 1 && s > 0
    ensures d * s >= s
  {
    if d > 1 {
      MulAtLeast(d - 1, s);
      assert d * s == (d - 1) * s + s;
    }
  }

  lemma DivOf(x: int, s: int, q: int, r: int)
    requires s > 0 && 0 <= r < s && x == q * s + r
    ensures x / s == q
  {
    var q', r' := x / s, x % s;
    assert x == q' * s + r' && 0 <= r' < s;
    assert (q - q') * s == r' - r;
    if q > q' {
      MulAtLeast(q - q', s);
    } else if q < q' {
      MulAtLeast(q' - q, s);
    }
  }

  lemma DivPlusOne(a: nat, size: nat)
    requires size > 0
    ensures (a + size) / size == a / size + 1
  {
    var q, r := a / size, a % size;
    assert a == q * size + r;
    assert a + size == (q + 1) * size + r;
    DivOf(a + size, size, q + 1, r);
  }

  /** There are ceil(|v| / size) pieces. */
  lemma {:induction false} ChunksCount<T>(v: seq<T>, size: nat)
    requires size > 0
    ensures |Chunks(v, size)| == (|v| + size - 1) / size
    decreases |v|
  {
    if |v| > size {
      ChunksCount(v[size..], size);
      DivPlusOne(|v[size..]| + size - 1, size);
      assert |v| + size - 1 == (|v[size..]| + size - 1) + size;
    } else if |v| > 0 {
      DivOf(|v| + size - 1, size, 1, |v| - 1);
    } else {
      DivOf(size - 1, size, 0, size - 1);
    }
  }

  /** No piece is empty or longer than `size`, and all but the last are exactly
      `size` long. */
  lemma {:induction false} ChunksSizes<T>(v: seq<T>, size: nat)
    requires size > 0
    ensures forall k :: 0 <= k < |Chunks(v, size)| ==> 0 < |Chunks(v, size)[k]| <= size
    ensures forall k :: 0 <= k < |Chunks(v, size)| - 1 ==> |Chunks(v, size)[k]| == size
    decreases |v|
  {
    if |v| > size {
      ChunksSizes(v[size..], size);
      assert Chunks(v, size) == [v[..size]] + Chunks(v[size..], size);
    }
  }

  /** Piece k is the slice `v[k * size .. min((k + 1) * size, |v|)]`: the run
      `value.slice(i, i + size)` takes with `i = k * size`. */
  lemma {:induction false} ChunkAt<T>(v: seq<T>, size: nat, k: nat)
    requires size > 0 && k * size < |v|
    ensures k < |Chunks(v, size)|
    ensures Chunks(v, size)[k] == v[k * size .. if (k + 1) * size <= |v| then (k + 1) * size else |v|]
    decreases k
  {
    ChunksHead(v, size);
    if k == 0 {
      assert 0 * size == 0 && 1 * size == size;
    } else {
      MulAtLeast(k, size);
      MulStep(k, size);
      var tail := v[size..];
      ChunkAt(tail, size, k - 1);
      var hi := if k * size <= |tail| then k * size else |tail|;
      assert tail[(k - 1) * size .. hi] == v[k * size .. hi + size];
    }
  }

  lemma MulStep(k: int, size: int)
    ensures k * size == (k - 1) * size + size
    ensures (k + 1) * size == k * size + size
  {
  }
}

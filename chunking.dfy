/**
 * How the loading loop cuts the parsed array: `data.slice(i, i + chunkSize)`
 * for i = 0, chunkSize, 2 * chunkSize, ... while i < data.length.
 */
module Chunking {
  import opened JsBuiltins

  /** The chunks, in order, that the loop hands to the worker. */
  function Chunks<T>(s: seq<T>, size: nat): (cs: seq<seq<T>>)
    requires size > 0
    decreases |s|
  {
    if s == [] then []
    else if |s| <= size then [s]
    else [s[..size]] + Chunks(s[size..], size)
  }

  /** The chunks glued back together, as the successive concat calls do. */
  function Flatten<T>(cs: seq<seq<T>>): (s: seq<T>)
  {
    if cs == [] then [] else cs[0] + Flatten(cs[1..])
  }

  /** A non-empty remainder starts with the slice the loop takes at that offset. */
  lemma ChunksFront<T>(s: seq<T>, size: nat)
    requires size > 0 && s != []
    ensures Chunks(s, size) == [Slice(s, 0, size)] + Chunks(s[Min(size, |s|)..], size)
  {
    if |s| <= size {
      assert s[|s|..] == [];
      assert s[0..|s|] == s;
    }
  }

  /** One step of the loop at offset p: the slice it takes extends the consumed prefix and
      is the first chunk of what remains. */
  lemma ChunkStep<T>(s: seq<T>, p: nat, size: nat)
    requires size > 0 && p < |s|
    ensures Chunks(s[p..], size) == [Slice(s, p, p + size)] + Chunks(s[Min(p + size, |s|)..], size)
  {
    var rest := s[p..];
    ChunksFront(rest, size);
    assert Slice(rest, 0, size) == Slice(s, p, p + size);
    assert rest[Min(size, |rest|)..] == s[Min(p + size, |s|)..];
  }

  /** The slice taken at offset p extends the prefix consumed so far. */
  lemma PrefixStep<T>(s: seq<T>, p: nat, size: nat)
    requires p < |s|
    ensures |Slice(s, p, p + size)| == Min(p + size, |s|) - p
    ensures s[..Min(p + size, |s|)] == s[..p] + Slice(s, p, p + size)
  {
  }

  /** The chunks concatenate back to the input. */
  lemma {:induction false} FlattenChunks<T>(s: seq<T>, size: nat)
    requires size > 0
    ensures Flatten(Chunks(s, size)) == s
    decreases |s|
  {
    if s != [] && |s| > size {
      FlattenChunks(s[size..], size);
      assert s[..size] + s[size..] == s;
    }
  }

  /** There are ceil(n / size) chunks (the least count whose total capacity reaches n);
      every one but the last holds exactly `size` records and the last between 1 and `size`. */
  lemma {:induction false} ChunkSizes<T>(s: seq<T>, size: nat)
    requires size > 0
    ensures (|Chunks(s, size)| - 1) * size < |s| <= |Chunks(s, size)| * size
    ensures forall k :: 0 <= k < |Chunks(s, size)| - 1 ==> |Chunks(s, size)[k]| == size
    ensures Chunks(s, size) != [] ==> 1 <= |Chunks(s, size)[|Chunks(s, size)| - 1]| <= size
    decreases |s|
  {
    var cs := Chunks(s, size);
    if s == [] {
    } else if |s| <= size {
    } else {
      var tail := s[size..];
      ChunkSizes(tail, size);
      assert cs == [s[..size]] + Chunks(tail, size);
      assert |cs| == |Chunks(tail, size)| + 1;
      assert (|cs| - 1) * size == (|Chunks(tail, size)| - 1) * size + size;
      assert |cs| * size == |Chunks(tail, size)| * size + size;
      forall k | 0 <= k < |cs| - 1 ensures |cs[k]| == size {
        if k > 0 { assert cs[k] == Chunks(tail, size)[k - 1]; }
      }
    }
  }

  /** 2500 records in chunks of 1000: three submissions of 1000, 1000 and 500. */
  lemma ChunksOf2500<T>(s: seq<T>)
    requires |s| == 2500
    ensures |Chunks(s, 1000)| == 3
    ensures |Chunks(s, 1000)[0]| == 1000 && |Chunks(s, 1000)[1]| == 1000 && |Chunks(s, 1000)[2]| == 500
  {
    var t1 := s[1000..];
    var t2 := t1[1000..];
    assert Chunks(t2, 1000) == [t2];
    assert Chunks(t1, 1000) == [t1[..1000]] + [t2];
    assert Chunks(s, 1000) == [s[..1000]] + [t1[..1000]] + [t2];
  }
}

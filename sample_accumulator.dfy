/** `mergeBuffers` of app/lib/microphone/EnableUserMicrophone.ts: flattens a
    sequence of sample chunks into one contiguous array. A Float32Array sample
    is modelled as a `real`. */
module SampleAccumulator {

  /** The chunks laid end to end, in order. */
  function Concat(chunks: seq<seq<real>>): seq<real>
  {
    if chunks == [] then [] else Concat(chunks[..|chunks| - 1]) + chunks[|chunks| - 1]
  }

  /** Sum of the chunk lengths. */
  function TotalLength(chunks: seq<seq<real>>): nat
  {
    if chunks == [] then 0 else TotalLength(chunks[..|chunks| - 1]) + |chunks[|chunks| - 1]|
  }

  lemma {:induction false} ConcatLength(chunks: seq<seq<real>>)
    ensures |Concat(chunks)| == TotalLength(chunks)
  {
    if chunks != [] {
      ConcatLength(chunks[..|chunks| - 1]);
    }
  }

  lemma {:induction false} TotalLengthPrefix(chunks: seq<seq<real>>, k: nat)
    requires k <= |chunks|
    ensures TotalLength(chunks[..k]) <= TotalLength(chunks)
    decreases |chunks|
  {
    if k < |chunks| {
      assert chunks[..|chunks| - 1][..k] == chunks[..k];
      TotalLengthPrefix(chunks[..|chunks| - 1], k);
    } else {
      assert chunks[..k] == chunks;
    }
  }

  /** Chunk `k` sits at the offset equal to the total length of chunks `0..k-1`. */
  lemma {:induction false} ConcatAt(chunks: seq<seq<real>>, k: nat, j: nat)
    requires k < |chunks| && j < |chunks[k]|
    ensures TotalLength(chunks[..k]) + j < |Concat(chunks)|
    ensures Concat(chunks)[TotalLength(chunks[..k]) + j] == chunks[k][j]
    decreases |chunks|
  {
    var init := chunks[..|chunks| - 1];
    ConcatLength(chunks);
    ConcatLength(init);
    if k == |chunks| - 1 {
      assert chunks[..k] == init;
    } else {
      assert init[..k] == chunks[..k];
      ConcatAt(init, k, j);
      TotalLengthPrefix(chunks, |chunks| - 1);
    }
  }

  lemma {:induction false} ConcatAppend(a: seq<seq<real>>, b: seq<seq<real>>)
    ensures Concat(a + b) == Concat(a) + Concat(b)
    decreases |b|
  {
    if b == [] {
      assert a + b == a;
    } else {
      var b' := b[..|b| - 1];
      assert (a + b)[..|a + b| - 1] == a + b';
      ConcatAppend(a, b');
    }
  }

  /** The current contents of each input array. */
  ghost function Views(buffers: seq<array<real>>): (r: seq<seq<real>>)
    reads buffers
    ensures |r| == |buffers|
    ensures forall k :: 0 <= k < |buffers| ==> r[k] == buffers[k][..]
  {
    seq(|buffers|, k requires 0 <= k < |buffers| reads buffers => buffers[k][..])
  }

  /** `TypedArray.prototype.set(src, offset)`: copies `src` into `dst` starting at `offset`. */
  method SetAt(dst: array<real>, src: array<real>, offset: nat)
    requires dst != src && offset + src.Length <= dst.Length
    modifies dst
    ensures dst[..] == old(dst[..offset]) + src[..] + old(dst[offset + src.Length..])
    ensures dst[..offset + src.Length] == old(dst[..offset]) + src[..]
  {
    forall j | 0 <= j < src.Length {
      dst[offset + j] := src[j];
    }
    assert dst[..offset + src.Length] == dst[..offset] + dst[offset..offset + src.Length];
    assert dst[..] == dst[..offset + src.Length] + dst[offset + src.Length..];
  }

  /** Sums the lengths, allocates the result, then copies each buffer at the
      running offset. The inputs are only read: the method modifies nothing
      but the array it allocates. */
  method MergeBuffers(buffers: seq<array<real>>) returns (result: array<real>)
    ensures fresh(result)
    ensures result.Length == TotalLength(Views(buffers))
    ensures result[..] == Concat(Views(buffers))
  {
    ghost var views := Views(buffers);
    var length := 0;
    for k := 0 to |buffers|
      invariant length == TotalLength(views[..k])
    {
      assert views[..k + 1][..k] == views[..k];
      length := length + buffers[k].Length;
    }
    assert views[..|buffers|] == views;
    result := new real[length];
    var offset := 0;
    for k := 0 to |buffers|
      invariant offset == TotalLength(views[..k]) <= length == result.Length
      invariant result[..offset] == Concat(views[..k])
      invariant Views(buffers) == views
    {
      var b := buffers[k];
      CopyChunk(result, b, offset, views, k);
      offset := offset + b.Length;
    }
    assert views[..|buffers|] == views;
  }

  /** One step of the copy loop: chunk `k` lands right after chunks `0..k-1`. */
  method CopyChunk(result: array<real>, b: array<real>, offset: nat, ghost views: seq<seq<real>>, ghost k: nat)
    requires k < |views| && b[..] == views[k] && result != b
    requires offset == TotalLength(views[..k]) <= result.Length == TotalLength(views)
    requires result[..offset] == Concat(views[..k])
    modifies result
    ensures offset + b.Length == TotalLength(views[..k + 1]) <= result.Length
    ensures result[..offset + b.Length] == Concat(views[..k + 1])
  {
    assert views[..k + 1][..k] == views[..k];
    TotalLengthPrefix(views, k + 1);
    SetAt(result, b, offset);
  }

  /** Merging no chunks gives a zero-length array. */
  lemma MergeNothing()
    ensures Concat([]) == [] && TotalLength([]) == 0
  {
  }
}

/** The fixed-capacity, overwrite-oldest ring buffer of app/lib/CircularBuffer.ts.

    The buffer keeps an array of `maxSize` slots (each slot either holds a value
    or is `undefined`), a `head` index (logical element 0), a `tail` index (the
    next slot to write) and a `currentSize`. The ghost field `Contents` is the
    logical view, oldest first; every method is specified against it. */
module RingBuffers {
  import opened Wrappers

  // ---------------------------------------------------------------------------
  // Specification functions over the logical view
  // ---------------------------------------------------------------------------

  /** A slot index past the end wrapped back to the front: `k % n` for the
      only case the buffer needs, `k < 2 * n` (see `WrapIsMod`). */
  function Wrap(k: nat, n: nat): (r: nat)
    requires 0 < n && k < 2 * n
    ensures r < n && (r == k || r + n == k)
  {
    if k < n then k else k - n
  }

  lemma WrapIsMod(k: nat, n: nat)
    requires 0 < n && k < 2 * n
    ensures Wrap(k, n) == k % n
  {
    var q, m := k / n, k % n;
    assert k == q * n + m && 0 <= m < n;
    if q >= 2 {
      MulMonotone(2, q, n);
    } else if q < 0 {
      MulMonotone(q + 1, 0, n);
    } else if q == 0 {
      assert k == m;
    } else {
      assert m == k - n;
    }
  }

  /** Distinct logical positions sit in distinct slots. */
  lemma WrapDistinct(h: nat, i: nat, j: nat, n: nat)
    requires h < n && i < j <= n && (j < n || i > 0)
    ensures Wrap(h + i, n) != Wrap(h + j, n)
  {
  }

  /** Logical position `i` after the head moved on is position `i + 1` before. */
  lemma WrapShift(h: nat, i: nat, n: nat)
    requires h < n && i < n
    ensures Wrap(Wrap(h + 1, n) + i, n) == Wrap(h + (i + 1), n)
  {
  }

  /** Logical element `i` of `contents` sits in slot `(head + i) % n`. */
  ghost predicate SlotsHold<T>(slots: seq<Option<T>>, head: nat, contents: seq<T>, n: nat)
    requires 0 < n && head < n && |contents| <= n
  {
    |slots| == n && forall i :: 0 <= i < |contents| ==> slots[Wrap(head + i, n)] == Some(contents[i])
  }

  /** The slot layout after one push: the new value sits in the tail slot,
      the head moves on when the buffer was full, every other element keeps its slot. */
  lemma PushKeepsSlots<T>(slots: seq<Option<T>>, h: nat, c: seq<T>, value: T, n: nat)
    requires 0 < n && h < n && |c| <= n
    requires SlotsHold(slots, h, c, n)
    ensures SlotsHold(slots[Wrap(h + |c|, n) := Some(value)], if |c| == n then Wrap(h + 1, n) else h, Pushed(c, value, n), n)
  {
    var pushed := Pushed(c, value, n);
    forall i | 0 <= i < |pushed|
      ensures slots[Wrap(h + |c|, n) := Some(value)][Wrap((if |c| == n then Wrap(h + 1, n) else h) + i, n)] == Some(pushed[i])
    {
      if |c| == n {
        PushedSlotFull(slots, h, c, value, n, i);
      } else {
        PushedSlotRoom(slots, h, c, value, n, i);
      }
    }
  }

  /** The slot layout after one push into a full buffer: the head moves on
      one slot and the new value sits in the old head's slot. */
  lemma PushedSlotFull<T>(slots: seq<Option<T>>, h: nat, c: seq<T>, value: T, n: nat, i: nat)
    requires |slots| == n && h < n && |c| == n && i < n
    requires forall i :: 0 <= i < |c| ==> slots[Wrap(h + i, n)] == Some(c[i])
    ensures slots[Wrap(h + n, n) := Some(value)][Wrap(Wrap(h + 1, n) + i, n)] == Some(Pushed(c, value, n)[i])
  {
    WrapShift(h, i, n);
    if i < n - 1 {
      PushedSlotKept(slots, h, c, value, n, i + 1, i);
    }
  }

  /** The slot layout after one push into a buffer with room: the new value
      sits in the tail slot and every other element keeps its slot. */
  lemma PushedSlotRoom<T>(slots: seq<Option<T>>, h: nat, c: seq<T>, value: T, n: nat, i: nat)
    requires |slots| == n && h < n && |c| < n && i <= |c|
    requires forall i :: 0 <= i < |c| ==> slots[Wrap(h + i, n)] == Some(c[i])
    ensures slots[Wrap(h + |c|, n) := Some(value)][Wrap(h + i, n)] == Some(Pushed(c, value, n)[i])
  {
    if i < |c| {
      PushedSlotKept(slots, h, c, value, n, i, i);
    }
  }

  /** A logical element other than the newest keeps its slot across the write. */
  lemma PushedSlotKept<T>(slots: seq<Option<T>>, h: nat, c: seq<T>, value: T, n: nat, before: nat, i: nat)
    requires |slots| == n && h < n && |c| <= n && before < |c|
    requires slots[Wrap(h + before, n)] == Some(c[before])
    requires i < |Pushed(c, value, n)| && Pushed(c, value, n)[i] == c[before]
    requires 0 < before || |c| < n
    ensures slots[Wrap(h + |c|, n) := Some(value)][Wrap(h + before, n)] == Some(Pushed(c, value, n)[i])
  {
    WrapDistinct(h, before, |c|, n);
  }

  /** Where the tail goes after one push, with or without the head moving. */
  lemma TailAfterPush(h: nat, s: nat, n: nat, head: nat, size: nat)
    requires h < n && s <= n
    requires head == (if s == n then Wrap(h + 1, n) else h)
    requires size == (if s == n then n else s + 1)
    ensures head + size < 2 * n
    ensures Wrap(Wrap(h + s, n) + 1, n) == Wrap(head + size, n)
  {
  }

  lemma MulMonotone(a: int, b: int, n: nat)
    requires a <= b
    ensures a * n <= b * n
  {
  }

  /** The logical contents after one push into a buffer holding `s` with room for `cap`. */
  function Pushed<T>(s: seq<T>, v: T, cap: nat): (r: seq<T>)
    requires 0 < cap && |s| <= cap
    ensures |r| == if |s| == cap then cap else |s| + 1
    ensures r[|r| - 1] == v
    ensures |s| < cap ==> r[..|s|] == s
    ensures |s| == cap ==> forall i :: 0 <= i < cap - 1 ==> r[i] == s[i + 1]
  {
    if |s| == cap then s[1..] + [v] else s + [v]
  }

  /** The logical contents after pushing every element of `vs`, in order. */
  function PushAll<T>(s: seq<T>, vs: seq<T>, cap: nat): seq<T>
    requires 0 < cap && |s| <= cap
    decreases |vs|
  {
    if vs == [] then s else PushAll(Pushed(s, vs[0], cap), vs[1..], cap)
  }

  /** The last `min(|s|, n)` elements of `s`. */
  function LastN<T>(s: seq<T>, n: nat): seq<T>
  {
    if |s| <= n then s else s[|s| - n..]
  }

  /** Elements of `s` (with their logical index) that satisfy `p`, in order. */
  function KeepIf<T>(s: seq<T>, p: (T, nat) -> bool): seq<T>
  {
    if s == [] then []
    else KeepIf(s[..|s| - 1], p) + (if p(s[|s| - 1], |s| - 1) then [s[|s| - 1]] else [])
  }

  /** Left fold of `f` over `s[lo..hi]`, passing each element's logical index. */
  function FoldRange<A, T>(f: (A, T, nat) -> A, acc: A, s: seq<T>, lo: nat, hi: nat): A
    requires lo <= hi <= |s|
    decreases hi
  {
    if hi == lo then acc else f(FoldRange(f, acc, s, lo, hi - 1), s[hi - 1], hi - 1)
  }

  // ---------------------------------------------------------------------------
  // Lemmas about the specification
  // ---------------------------------------------------------------------------

  lemma {:induction false} PushedIsLastN<T>(s: seq<T>, v: T, cap: nat)
    requires 0 < cap && |s| <= cap
    ensures Pushed(s, v, cap) == LastN(s + [v], cap)
  {
  }

  lemma {:induction false} LastNOfLastN<T>(x: seq<T>, y: seq<T>, n: nat)
    ensures LastN(LastN(x, n) + y, n) == LastN(x + y, n)
  {
    if |x| > n {
      var t := x[|x| - n..];
      assert x + y == x[..|x| - n] + (t + y);
    }
  }

  /** Pushing `vs` keeps exactly the last `cap` values of everything pushed. */
  lemma {:induction false} PushAllKeepsLast<T>(s: seq<T>, vs: seq<T>, cap: nat)
    requires 0 < cap && |s| <= cap
    ensures PushAll(s, vs, cap) == LastN(s + vs, cap)
    decreases |vs|
  {
    if vs == [] {
      assert s + vs == s;
    } else {
      var s' := Pushed(s, vs[0], cap);
      PushedIsLastN(s, vs[0], cap);
      PushAllKeepsLast(s', vs[1..], cap);
      LastNOfLastN(s + [vs[0]], vs[1..], cap);
      assert s + [vs[0]] + vs[1..] == s + vs;
    }
  }

  /** Scenario: pushing `v1..vn` into an empty buffer leaves the last `min(n, cap)` values. */
  lemma PushAllFromEmpty<T>(vs: seq<T>, cap: nat)
    requires 0 < cap
    ensures |PushAll([], vs, cap)| == if |vs| <= cap then |vs| else cap
    ensures PushAll([], vs, cap) == vs[|vs| - (if |vs| <= cap then |vs| else cap)..]
  {
    PushAllKeepsLast([], vs, cap);
    assert [] + vs == vs;
  }

  /** Capacity 3, pushes 1..5: the buffer holds [3, 4, 5]. */
  lemma CapacityThreeScenario()
    ensures PushAll([], [1, 2, 3, 4, 5], 3) == [3, 4, 5]
  {
    PushAllFromEmpty([1, 2, 3, 4, 5], 3);
  }

  lemma {:induction false} KeepIfSound<T>(s: seq<T>, p: (T, nat) -> bool)
    ensures |KeepIf(s, p)| <= |s|
    ensures forall x :: x in KeepIf(s, p) ==> exists i :: 0 <= i < |s| && s[i] == x && p(x, i)
  {
    if s != [] {
      var init := s[..|s| - 1];
      KeepIfSound(init, p);
      forall x | x in KeepIf(s, p)
        ensures exists i :: 0 <= i < |s| && s[i] == x && p(x, i)
      {
        if x in KeepIf(init, p) {
          var i :| 0 <= i < |init| && init[i] == x && p(x, i);
          assert s[i] == x;
        } else {
          assert s[|s| - 1] == x && p(x, |s| - 1);
        }
      }
    }
  }

  lemma {:induction false} KeepIfComplete<T>(s: seq<T>, p: (T, nat) -> bool)
    ensures forall i :: 0 <= i < |s| && p(s[i], i) ==> s[i] in KeepIf(s, p)
  {
    if s != [] {
      var init := s[..|s| - 1];
      KeepIfComplete(init, p);
      forall i | 0 <= i < |s| && p(s[i], i)
        ensures s[i] in KeepIf(s, p)
      {
        if i < |s| - 1 {
          assert init[i] == s[i];
        }
      }
    }
  }

  /** Folding over a range is folding over its two halves in turn. */
  lemma {:induction false} FoldRangeSplit<A, T>(f: (A, T, nat) -> A, acc: A, s: seq<T>, lo: nat, mid: nat, hi: nat)
    requires lo <= mid <= hi <= |s|
    ensures FoldRange(f, acc, s, lo, hi) == FoldRange(f, FoldRange(f, acc, s, lo, mid), s, mid, hi)
    decreases hi
  {
    if hi > mid {
      FoldRangeSplit(f, acc, s, lo, mid, hi - 1);
    }
  }

  // ---------------------------------------------------------------------------
  // The buffer
  // ---------------------------------------------------------------------------

  class CircularBuffer<T> {
    const maxSize: nat
    const buffer: array<Option<T>>
    var head: nat
    var tail: nat
    var currentSize: nat

    /** The logical contents, oldest (index 0) to newest (index size-1). */
    ghost var Contents: seq<T>

    ghost predicate Valid()
      reads this, buffer
    {
      && 0 < maxSize == buffer.Length
      && head < maxSize
      && currentSize <= maxSize
      && tail == Wrap(head + currentSize, maxSize)
      && |Contents| == currentSize
      && SlotsHold(buffer[..], head, Contents, maxSize)
    }

    /** Only reachable with a positive integer capacity; `Create` models the check. */
    constructor (maxSize: nat)
      requires 0 < maxSize
      ensures Valid() && fresh(buffer)
      ensures Contents == [] && this.maxSize == maxSize
      ensures forall k :: 0 <= k < buffer.Length ==> buffer[k] == None
    {
      this.maxSize := maxSize;
      buffer := new Option<T>[maxSize](_ => None);
      head, tail, currentSize := 0, 0, 0;
      Contents := [];
    }

    function Size(): (r: nat)
      requires Valid()
      reads this, buffer
      ensures r == |Contents| && r <= Capacity()
    {
      currentSize
    }

    /** `capacity()`: the fixed number of slots, always positive. */
    function Capacity(): (r: nat)
      requires Valid()
      reads this, buffer
      ensures r == buffer.Length && 0 < r
    {
      maxSize
    }

    function IsFull(): (r: bool)
      requires Valid()
      reads this, buffer
      ensures r <==> |Contents| == Capacity()
    {
      currentSize == maxSize
    }

    function IsEmpty(): (r: bool)
      requires Valid()
      reads this, buffer
      ensures r <==> Contents == []
    {
      currentSize == 0
    }

    /** Element at a logical index; `None` (undefined) for a non-integer,
        negative or out-of-range index. */
    function Get(index: real): (r: Option<T>)
      requires Valid()
      reads this, buffer
      ensures r.None? <==> (index.Floor as real != index || index < 0.0 || index >= |Contents| as real)
      ensures r.Some? ==> 0 <= index.Floor < |Contents| && r.value == Contents[index.Floor]
    {
      if index.Floor as real != index || index < 0.0 || index >= currentSize as real then None
      else
        var i: nat := index.Floor;
        var physicalIndex := (head + i) % maxSize;
        WrapIsMod(head + i, maxSize);
        assert buffer[physicalIndex] == Some(Contents[i]);
        buffer[physicalIndex]
    }

    method PushInner(value: T) returns (ok: bool)
      requires Valid()
      modifies this, buffer
      ensures Valid() && ok
      ensures Contents == Pushed(old(Contents), value, maxSize)
      ensures old(currentSize) < maxSize ==> currentSize == old(currentSize) + 1 && head == old(head)
      ensures old(currentSize) == maxSize ==> currentSize == maxSize && head == Wrap(old(head) + 1, maxSize)
    {
      ghost var h, t, s, c, slots := head, tail, currentSize, Contents, buffer[..];
      // The source asks isFull() right after the write; the write does not
      // touch currentSize, so asking first gives the same answer.
      var wasFull := IsFull();
      buffer[tail] := Some(value);
      WrapIsMod(t + 1, maxSize);
      tail := (tail + 1) % maxSize;
      if wasFull {
        WrapIsMod(h + 1, maxSize);
        head := (head + 1) % maxSize;
      } else {
        currentSize := currentSize + 1;
      }
      Contents := Pushed(Contents, value, maxSize);
      ok := true;
      assert buffer[..] == slots[t := Some(value)];
      PushKeepsSlots(slots, h, c, value, maxSize);
      TailAfterPush(h, s, maxSize, head, currentSize);
    }

    /** `push(...items)`: pushes each item in turn. */
    method Push(items: seq<T>)
      requires Valid()
      modifies this, buffer
      ensures Valid()
      ensures Contents == PushAll(old(Contents), items, maxSize)
    {
      var k := 0;
      while k < |items|
        invariant 0 <= k <= |items|
        invariant Valid()
        invariant PushAll(Contents, items[k..], maxSize) == PushAll(old(Contents), items, maxSize)
      {
        assert items[k..][0] == items[k] && items[k..][1..] == items[k + 1..];
        var _ := PushInner(items[k]);
        k := k + 1;
      }
    }

    /** Logical contents as a fresh array, oldest first; undefined slots are skipped. */
    method ToArray() returns (result: seq<T>)
      requires Valid()
      ensures result == Contents
    {
      result := [];
      var i := 0;
      while i < currentSize
        invariant 0 <= i <= currentSize
        invariant result == Contents[..i]
      {
        var physicalIndex := (head + i) % maxSize;
        WrapIsMod(head + i, maxSize);
        var value := buffer[physicalIndex];
        assert value == Some(Contents[i]);
        if value.Some? {
          result := result + [value.value];
        }
        i := i + 1;
      }
    }

    method Clear()
      requires Valid()
      modifies this, buffer
      ensures Valid() && Contents == [] && Capacity() == old(Capacity())
      ensures head == 0 && tail == 0 && currentSize == 0
      ensures forall k :: 0 <= k < buffer.Length ==> buffer[k] == None
    {
      forall k | 0 <= k < buffer.Length {
        buffer[k] := None;
      }
      head, tail, currentSize := 0, 0, 0;
      Contents := [];
    }

    method Map<U>(f: (T, nat) -> U) returns (result: seq<U>)
      requires Valid()
      ensures |result| == |Contents|
      ensures forall i :: 0 <= i < |Contents| ==> result[i] == f(Contents[i], i)
    {
      result := [];
      var logicalIndex := 0;
      while logicalIndex < currentSize
        invariant 0 <= logicalIndex <= currentSize
        invariant |result| == logicalIndex
        invariant forall i :: 0 <= i < logicalIndex ==> result[i] == f(Contents[i], i)
      {
        var value := Get(logicalIndex as real).value;
        result := result + [f(value, logicalIndex)];
        logicalIndex := logicalIndex + 1;
      }
    }

    method Filter(test: (T, nat) -> bool) returns (result: seq<T>)
      requires Valid()
      ensures result == KeepIf(Contents, test)
    {
      result := [];
      var logicalIndex := 0;
      while logicalIndex < currentSize
        invariant 0 <= logicalIndex <= currentSize
        invariant result == KeepIf(Contents[..logicalIndex], test)
      {
        var value := Get(logicalIndex as real).value;
        assert Contents[..logicalIndex + 1][..logicalIndex] == Contents[..logicalIndex];
        if test(value, logicalIndex) {
          result := result + [value];
        }
        logicalIndex := logicalIndex + 1;
      }
      assert Contents[..currentSize] == Contents;
    }

    /** `reduce(callback, initialValue)`: a left fold from the seed. */
    method ReduceFrom<U>(callbackfn: (U, T, nat) -> U, initialValue: U) returns (r: U)
      requires Valid()
      ensures r == FoldRange(callbackfn, initialValue, Contents, 0, |Contents|)
    {
      r := initialValue;
      var i := 0;
      while i < currentSize
        invariant 0 <= i <= currentSize
        invariant r == FoldRange(callbackfn, initialValue, Contents, 0, i)
      {
        var currentValue := Get(i as real).value;
        r := callbackfn(r, currentValue, i);
        i := i + 1;
      }
    }

    /** `reduce(callback)` without a seed: throws on an empty buffer, otherwise
        folds from element 0 over elements 1 .. size-1. */
    method Reduce(callbackfn: (T, T, nat) -> T) returns (r: Outcome<T>)
      requires Valid()
      ensures r.Threw? <==> Contents == []
      ensures r.Returned? ==> r.value == FoldRange(callbackfn, Contents[0], Contents, 1, |Contents|)
    {
      if IsEmpty() {
        return Threw;
      }
      var accumulator := Get(0.0).value;
      var i := 1;
      while i < currentSize
        invariant 1 <= i <= currentSize
        invariant accumulator == FoldRange(callbackfn, Contents[0], Contents, 1, i)
      {
        var currentValue := Get(i as real).value;
        accumulator := callbackfn(accumulator, currentValue, i);
        i := i + 1;
      }
      r := Returned(accumulator);
    }

    method Any(test: (T, nat) -> bool) returns (r: bool)
      requires Valid()
      ensures r <==> exists i :: 0 <= i < |Contents| && test(Contents[i], i)
    {
      var logicalIndex := 0;
      while logicalIndex < currentSize
        invariant 0 <= logicalIndex <= currentSize
        invariant forall i :: 0 <= i < logicalIndex ==> !test(Contents[i], i)
      {
        var value := Get(logicalIndex as real).value;
        if test(value, logicalIndex) {
          return true;
        }
        logicalIndex := logicalIndex + 1;
      }
      return false;
    }

    method Every(test: (T, nat) -> bool) returns (r: bool)
      requires Valid()
      ensures r <==> forall i :: 0 <= i < |Contents| ==> test(Contents[i], i)
    {
      var logicalIndex := 0;
      while logicalIndex < currentSize
        invariant 0 <= logicalIndex <= currentSize
        invariant forall i :: 0 <= i < logicalIndex ==> test(Contents[i], i)
      {
        var value := Get(logicalIndex as real).value;
        if !test(value, logicalIndex) {
          return false;
        }
        logicalIndex := logicalIndex + 1;
      }
      return true;
    }

    method Find(test: (T, nat) -> bool) returns (r: Option<T>)
      requires Valid()
      ensures r.None? <==> forall i :: 0 <= i < |Contents| ==> !test(Contents[i], i)
      ensures r.Some? ==> exists i :: 0 <= i < |Contents| && Contents[i] == r.value && test(r.value, i)
                                    && forall j :: 0 <= j < i ==> !test(Contents[j], j)
    {
      var logicalIndex := 0;
      while logicalIndex < currentSize
        invariant 0 <= logicalIndex <= currentSize
        invariant forall i :: 0 <= i < logicalIndex ==> !test(Contents[i], i)
      {
        var value := Get(logicalIndex as real).value;
        if test(value, logicalIndex) {
          return Some(value);
        }
        logicalIndex := logicalIndex + 1;
      }
      return None;
    }

    method FindIndex(test: (T, nat) -> bool) returns (r: int)
      requires Valid()
      ensures -1 <= r < |Contents|
      ensures r == -1 <==> forall i :: 0 <= i < |Contents| ==> !test(Contents[i], i)
      ensures r >= 0 ==> test(Contents[r], r) && forall j :: 0 <= j < r ==> !test(Contents[j], j)
    {
      var logicalIndex := 0;
      while logicalIndex < currentSize
        invariant 0 <= logicalIndex <= currentSize
        invariant forall i :: 0 <= i < logicalIndex ==> !test(Contents[i], i)
      {
        var value := Get(logicalIndex as real).value;
        if test(value, logicalIndex) {
          return logicalIndex;
        }
        logicalIndex := logicalIndex + 1;
      }
      return -1;
    }
  }

  /** The constructor's argument check: a capacity that is not a positive
      integer throws; otherwise the new buffer is empty with that capacity. */
  method Create<T>(maxSize: real) returns (r: Outcome<CircularBuffer<T>>)
    ensures r.Threw? <==> (maxSize <= 0.0 || maxSize.Floor as real != maxSize)
    ensures r.Returned? ==> fresh(r.value) && r.value.Valid() && r.value.Contents == []
                            && r.value.Capacity() == maxSize.Floor
  {
    if maxSize <= 0.0 || maxSize.Floor as real != maxSize {
      return Threw;
    }
    var b := new CircularBuffer<T>(maxSize.Floor);
    r := Returned(b);
  }
}

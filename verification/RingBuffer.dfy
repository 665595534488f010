/** The intra-process ring buffer: a fixed array with a write and a read index, refined to a bounded
    first-in-first-out sequence that drops its oldest element when full. */
module RingBuffer {
  import opened Options

  /** What enqueue means. */
  function Pushed<T>(s: seq<T>, capacity: nat, x: T): (r: seq<T>)
    requires |s| <= capacity && capacity > 0
    ensures |r| <= capacity && r != [] && r[|r| - 1] == x
  {
    if |s| == capacity then s[1..] + [x] else s + [x]
  }

  /** Position r + k on a ring of m slots. */
  function Wrap(r: nat, k: nat, m: nat): nat
    requires r < m && k <= m
  {
    if r + k < m then r + k else r + k - m
  }

  /** The n elements from position r on. */
  function Window<T>(a: seq<T>, r: nat, n: nat): (s: seq<T>)
    requires r < |a| && n <= |a|
    ensures |s| == n
  {
    seq(n, k requires 0 <= k < n => a[Wrap(r, k, |a|)])
  }

  /** Writing behind the window pushes; the oldest element goes when the window was full. */
  lemma WindowPush<T>(a: seq<T>, r: nat, n: nat, x: T)
    requires r < |a| && n <= |a|
    ensures Window(a[Wrap(r, n, |a|) := x], if n == |a| then Wrap(r, 1, |a|) else r, if n == |a| then n else n + 1)
            == Pushed(Window(a, r, n), |a|, x)
  {
    var m := |a|;
    var a' := a[Wrap(r, n, m) := x];
    forall k | 0 <= k < n && (n < m || k > 0)
      ensures a'[Wrap(r, k, m)] == a[Wrap(r, k, m)]
    {}
    if n == m {
      forall k | 0 <= k < n
        ensures a'[Wrap(Wrap(r, 1, m), k, m)] == Pushed(Window(a, r, n), m, x)[k]
      {
        assert Wrap(Wrap(r, 1, m), k, m) == if k + 1 < m then Wrap(r, k + 1, m) else r;
      }
    }
  }

  lemma WindowPop<T>(a: seq<T>, r: nat, n: nat)
    requires r < |a| && 0 < n <= |a|
    ensures Window(a, Wrap(r, 1, |a|), n - 1) == Window(a, r, n)[1..]
  {}

  lemma NextIndex(i: nat, capacity: nat)
    requires i < capacity
    ensures (i + 1) % capacity == Wrap(i, 1, capacity)
  {
    if i + 1 < capacity { SmallMod(i + 1, capacity); }
  }

  lemma SmallMod(x: nat, m: nat)
    requires x < m
    ensures x % m == x
  {}

  class RingBuffer<T(0)> {
    const capacity: nat
    const ring: array<T>
    var writeIndex: nat
    var readIndex: nat
    var size: nat

    /** The write index is one slot before the first free one. */
    ghost predicate Valid()
      reads this
    {
      && capacity > 0 && ring.Length == capacity
      && readIndex < capacity && size <= capacity && writeIndex < capacity
      && Wrap(writeIndex, 1, capacity) == Wrap(readIndex, size, capacity)
    }

    ghost function Contents(): (s: seq<T>)
      reads this, ring
      requires Valid()
      ensures |s| == size
    {
      Window(ring[..], readIndex, size)
    }

    constructor (capacity: nat)
      requires capacity > 0         // the source throws invalid_argument otherwise
      ensures Valid() && this.capacity == capacity && Contents() == [] && fresh(ring)
    {
      this.capacity := capacity;
      ring := new T[capacity];
      writeIndex, readIndex, size := capacity - 1, 0, 0;
    }

    method Enqueue(request: T)
      requires Valid()
      modifies this`writeIndex, this`readIndex, this`size, ring
      ensures Valid() && Contents() == Pushed(old(Contents()), capacity, request)
    {
      NextIndex(writeIndex, capacity);
      NextIndex(readIndex, capacity);
      WindowPush(ring[..], readIndex, size, request);
      writeIndex := (writeIndex + 1) % capacity;
      ring[writeIndex] := request;
      assert ring[..] == old(ring[..])[writeIndex := request];
      if size == capacity {
        readIndex := (readIndex + 1) % capacity;
      } else {
        size := size + 1;
      }
    }

    /** An empty buffer yields a null message. */
    method Dequeue() returns (request: Option<T>)
      requires Valid()
      modifies this`readIndex, this`size
      ensures Valid()
      ensures request == if old(Contents()) == [] then None else Some(old(Contents())[0])
      ensures Contents() == if old(Contents()) == [] then [] else old(Contents())[1..]
    {
      if size == 0 { return None; }
      NextIndex(readIndex, capacity);
      WindowPop(ring[..], readIndex, size);
      request := Some(ring[readIndex]);
      readIndex := (readIndex + 1) % capacity;
      size := size - 1;
    }

    method HasData() returns (yes: bool)
      requires Valid()
      ensures yes <==> Contents() != []
    {
      yes := size != 0;
    }
  }
}

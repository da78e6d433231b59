/** Fixed-capacity ring buffer over the most recent items (backtest/src/rolling_window.rs). */
module RollingWindows {
  import opened Reals

  /** The last `n` items of `xs`, oldest first. */
  function Latest<T>(xs: seq<T>, n: nat): (r: seq<T>)
    ensures |r| == if |xs| <= n then |xs| else n
  {
    if |xs| <= n then xs else xs[|xs| - n..]
  }

  /** Trimming after every push keeps exactly the last `n` items of everything pushed. */
  lemma TrimmingEveryPush<T>(xs: seq<T>, x: T, n: nat)
    requires n > 0
    ensures Latest(Latest(xs, n) + [x], n) == Latest(xs + [x], n)
    ensures |xs| >= n ==> Latest(xs + [x], n) == Latest(xs, n)[1..] + [x]
    ensures |xs| < n ==> Latest(xs + [x], n) == Latest(xs, n) + [x]
  {}

  /** The position after `position` on a ring of `size` slots. */
  function Next(position: nat, size: nat): (r: nat)
    requires position < size
    ensures r == if position + 1 == size then 0 else position + 1
  {
    (position + 1) % size
  }

  /** The items of a full ring whose oldest item is at `oldest`. */
  function Unrolled<T>(ring: seq<T>, oldest: nat): seq<T>
    requires oldest <= |ring|
  {
    ring[oldest..] + ring[..oldest]
  }

  /** Overwriting the oldest item of a full ring drops the front and appends at the back. */
  lemma OverwriteOldest<T>(ring: seq<T>, oldest: nat, item: T)
    requires oldest < |ring|
    ensures Unrolled(ring[oldest := item], Next(oldest, |ring|)) == Unrolled(ring, oldest)[1..] + [item]
  {}

  lemma FillStep<T>(buf: seq<T>, capacity: nat, pushed: seq<T>, item: T)
    requires |buf| < capacity && buf == Latest(pushed, capacity)
    ensures buf + [item] == Unrolled(buf + [item], 0) == Latest(pushed + [item], capacity)
  {}

  lemma OverwriteStep<T>(ring: seq<T>, oldest: nat, pushed: seq<T>, item: T)
    requires oldest < |ring| && Unrolled(ring, oldest) == Latest(pushed, |ring|)
    ensures Unrolled(ring[oldest := item], Next(oldest, |ring|)) == Latest(pushed + [item], |ring|)
  {
    assert |Unrolled(ring, oldest)| == |ring|;
    hide Next, Unrolled;
    OverwriteOldest(ring, oldest, item);
    TrimmingEveryPush(pushed, item, |ring|);
  }

  lemma WrapAtCapacity(n: nat, capacity: nat)
    requires n <= capacity && capacity > 0
    ensures n % capacity == if n < capacity then n else 0
  {}

  class RollingWindow<T> {
    var buf: seq<T>
    const capacity: nat
    var len: nat
    var writePos: nat
    /** Everything ever pushed, oldest first. */
    ghost var pushed: seq<T>

    function Contents(): seq<T>
      requires len <= |buf| && writePos <= |buf|
      reads this
    {
      if len < capacity then buf[..len] else Unrolled(buf, writePos)
    }

    ghost predicate Valid()
      reads this
    {
      && 0 < capacity
      && len == |buf| <= capacity
      && (if len < capacity then writePos == len else writePos < capacity)
      && Contents() == Latest(pushed, capacity)
    }

    /** A capacity of zero is treated as one. */
    constructor (requested: nat)
      ensures Valid() && pushed == []
      ensures capacity == if requested == 0 then 1 else requested
    {
      capacity := if requested > 1 then requested else 1;
      buf, len, writePos := [], 0, 0;
      pushed := [];
    }

    method Push(item: T)
      requires Valid()
      modifies this
      ensures Valid()
      ensures pushed == old(pushed) + [item]
    {
      hide Next, Unrolled, Latest;
      assert buf[..len] == buf;
      if |buf| < capacity {
        FillStep(buf, capacity, pushed, item);
        buf := buf + [item];
        len := |buf|;
        writePos := len % capacity;
        WrapAtCapacity(len, capacity);
        assert buf[..len] == buf;
      } else {
        OverwriteStep(buf, writePos, pushed, item);
        buf := buf[writePos := item];
        writePos := Next(writePos, capacity);
        len := capacity;
      }
      pushed := pushed + [item];
    }

    /** The contents as two contiguous runs, oldest first. */
    method AsSlices() returns (first: seq<T>, second: seq<T>)
      requires Valid()
      ensures first + second == Latest(pushed, capacity)
      ensures |pushed| < capacity ==> second == []
    {
      if len < capacity {
        first, second := buf[..len], [];
      } else {
        first, second := buf[writePos..], buf[..writePos];
      }
    }

    method ToVec() returns (items: seq<T>)
      requires Valid()
      ensures items == Latest(pushed, capacity)
    {
      var first, second := AsSlices();
      items := first + second;
    }

    /** The most recently pushed item. */
    method Last() returns (item: Option<T>)
      requires Valid()
      ensures item == if pushed == [] then None else Some(pushed[|pushed| - 1])
    {
      assert |Contents()| == len;
      if len == 0 {
        item := None;
      } else {
        ghost var newest := Contents()[len - 1];
        assert newest == pushed[|pushed| - 1];
        if writePos == 0 {
          item := Some(buf[|buf| - 1]);
        } else {
          item := Some(buf[writePos - 1]);
        }
      }
    }
  }
}

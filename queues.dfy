// Python's `queue.Queue` as the scripts use it, modelled sequentially: a
// `put` with a timeout (or `put_nowait`) on a full queue fails at once
// instead of waiting for a consumer, and a `get` on an empty queue fails
// at once. A `maxsize` of zero or less means unbounded.

module PyQueue {
  import opened Wrappers

  /** `queue.Queue(maxsize)` is full only for a positive `maxsize`. */
  predicate IsFull<T>(items: seq<T>, maxSize: int) {
    maxSize > 0 && |items| >= maxSize
  }

  /** The queue fits its bound (every queue fits an unbounded one). */
  predicate Fits<T>(items: seq<T>, maxSize: int) {
    maxSize <= 0 || |items| <= maxSize
  }

  /** `put` that gives up on a full queue: the new item is dropped. */
  function OfferDropNewest<T>(items: seq<T>, maxSize: int, x: T): (r: seq<T>)
    ensures r == items || r == items + [x]
    ensures r == items <==> IsFull(items, maxSize)
    ensures Fits(items, maxSize) ==> Fits(r, maxSize)
  {
    if IsFull(items, maxSize) then items else items + [x]
  }

  /** `put`, and on `Full` one `get_nowait` followed by `put`: the oldest
    * item makes room. */
  function OfferEvictOldest<T>(items: seq<T>, maxSize: int, x: T): (r: seq<T>)
    ensures |r| >= 1 && r[|r| - 1] == x
    ensures |r| == (if IsFull(items, maxSize) then |items| else |items| + 1)
    ensures Fits(items, maxSize) ==> Fits(r, maxSize)
  {
    if IsFull(items, maxSize) then items[1..] + [x] else items + [x]
  }

  function OfferAllDropNewest<T>(items: seq<T>, maxSize: int, xs: seq<T>): seq<T>
    decreases |xs|
  {
    if xs == [] then items
    else OfferDropNewest(OfferAllDropNewest(items, maxSize, xs[..|xs| - 1]), maxSize, xs[|xs| - 1])
  }

  function OfferAllEvictOldest<T>(items: seq<T>, maxSize: int, xs: seq<T>): seq<T>
    decreases |xs|
  {
    if xs == [] then items
    else OfferEvictOldest(OfferAllEvictOldest(items, maxSize, xs[..|xs| - 1]), maxSize, xs[|xs| - 1])
  }

  /** Offering the items of `xs` one at a time, as a loop over `xs[..k]` does. */
  lemma OfferAllDropNewestStep<T>(items: seq<T>, maxSize: int, xs: seq<T>, k: nat)
    requires k < |xs|
    ensures OfferAllDropNewest(items, maxSize, xs[..k + 1])
      == OfferDropNewest(OfferAllDropNewest(items, maxSize, xs[..k]), maxSize, xs[k])
  {
    assert xs[..k + 1][..k] == xs[..k];
  }

  lemma OfferAllEvictOldestStep<T>(items: seq<T>, maxSize: int, xs: seq<T>, k: nat)
    requires k < |xs|
    ensures OfferAllEvictOldest(items, maxSize, xs[..k + 1])
      == OfferEvictOldest(OfferAllEvictOldest(items, maxSize, xs[..k]), maxSize, xs[k])
  {
    assert xs[..k + 1][..k] == xs[..k];
  }

  /** The first `maxSize` items of `s` (all of them when unbounded). */
  function Oldest<T>(s: seq<T>, maxSize: int): (r: seq<T>)
    ensures Fits(r, maxSize) && r <= s
  {
    if maxSize > 0 && |s| > maxSize then s[..maxSize] else s
  }

  /** The last `maxSize` items of `s` (all of them when unbounded). */
  function Newest<T>(s: seq<T>, maxSize: int): (r: seq<T>)
    ensures Fits(r, maxSize)
    ensures |r| <= |s| && r == s[|s| - |r|..]
  {
    if maxSize > 0 && |s| > maxSize then s[|s| - maxSize..] else s
  }

  /** Dropping the newest keeps the items that came first: the queue holds
    * the oldest `maxSize` of everything offered. */
  lemma {:induction false} DropNewestKeepsOldest<T>(items: seq<T>, maxSize: int, xs: seq<T>)
    requires Fits(items, maxSize)
    ensures OfferAllDropNewest(items, maxSize, xs) == Oldest(items + xs, maxSize)
    decreases |xs|
  {
    if xs != [] {
      var init := xs[..|xs| - 1];
      var x := xs[|xs| - 1];
      DropNewestKeepsOldest(items, maxSize, init);
      assert items + xs == (items + init) + [x];
      var s := items + init;
      if maxSize > 0 && |s| >= maxSize {
        assert (s + [x])[..maxSize] == s[..maxSize];
      }
    }
  }

  /** Evicting the oldest keeps the items that came last: the queue holds
    * the newest `maxSize` of everything offered, in arrival order. */
  lemma {:induction false} EvictOldestKeepsNewest<T>(items: seq<T>, maxSize: int, xs: seq<T>)
    requires Fits(items, maxSize)
    ensures OfferAllEvictOldest(items, maxSize, xs) == Newest(items + xs, maxSize)
    decreases |xs|
  {
    if xs != [] {
      var init := xs[..|xs| - 1];
      EvictOldestKeepsNewest(items, maxSize, init);
      assert items + xs == (items + init) + [xs[|xs| - 1]];
      EvictStep(items + init, maxSize, xs[|xs| - 1]);
    }
  }

  /** One offer to the newest `maxSize` of `s` gives the newest `maxSize` of
    * `s + [x]`. */
  lemma EvictStep<T>(s: seq<T>, maxSize: int, x: T)
    ensures OfferEvictOldest(Newest(s, maxSize), maxSize, x) == Newest(s + [x], maxSize)
  {
    if maxSize > 0 && |s| >= maxSize {
      var q := Newest(s, maxSize);
      assert q == s[|s| - maxSize..];
      assert q[1..] + [x] == (s + [x])[|s| + 1 - maxSize..];
    }
  }

  /** Under both policies a bounded queue stays within its bound, and an
    * evicting queue that was full stays exactly full. */
  lemma OfferBounds<T>(items: seq<T>, maxSize: int, x: T)
    requires Fits(items, maxSize)
    ensures Fits(OfferDropNewest(items, maxSize, x), maxSize)
    ensures Fits(OfferEvictOldest(items, maxSize, x), maxSize)
    ensures IsFull(items, maxSize) ==>
      |OfferEvictOldest(items, maxSize, x)| == maxSize && OfferDropNewest(items, maxSize, x) == items
  {
  }

  /** A `queue.Queue(maxsize)` whose `put` fails when full. */
  class Queue<T> {
    const maxSize: int
    var items: seq<T>

    predicate Valid()
      reads this
    {
      Fits(items, maxSize)
    }

    constructor (maxSize: int)
      ensures Valid() && this.maxSize == maxSize && items == []
    {
      this.maxSize := maxSize;
      items := [];
    }

    /** `put(x, timeout=...)` / `put_nowait(x)`: `false` stands for
      * `queue.Full`, and then nothing changes. */
    method Put(x: T) returns (ok: bool)
      requires Valid()
      modifies this
      ensures Valid()
      ensures ok <==> !IsFull(old(items), maxSize)
      ensures items == OfferDropNewest(old(items), maxSize, x)
    {
      ok := !IsFull(items, maxSize);
      if ok {
        items := items + [x];
      }
    }

    /** `get(timeout=...)`: the oldest item, or `None` for `queue.Empty`. */
    method Get() returns (x: Option<T>)
      requires Valid()
      modifies this
      ensures Valid()
      ensures old(items) == [] ==> x.None? && items == []
      ensures old(items) != [] ==> x == Some(old(items)[0]) && items == old(items)[1..]
    {
      if items == [] {
        x := None;
      } else {
        x := Some(items[0]);
        items := items[1..];
      }
    }
  }
}

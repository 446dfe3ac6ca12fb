/** The bounded queue of the thread pool as a value: a slot array with wrapping front and back
    indices of which one slot stays free, and the flag that gates producers. */
module RingBuffer {

  const TASKS_PER_THREAD := 4

  /** The next slot index, wrapping to 0 past the end. */
  function Next(i: int, n: int): (j: int)
    requires 0 <= i < n
    ensures 0 <= j < n
    ensures j == if i + 1 == n then 0 else i + 1
  {
    assert i + 1 < n ==> (i + 1) % n == i + 1;
    (i + 1) % n
  }

  datatype Ring = Ring(slots: seq<int>, front: int, back: int, fullFlag: int) {

    ghost predicate Valid() {
      4 <= |slots| && 0 <= front < |slots| && 0 <= back < |slots|
    }

    function Size(): nat { |slots| }

    /** The queued tasks, oldest first. */
    ghost function Contents(): seq<int>
      requires Valid()
    {
      if front <= back then slots[front..back] else slots[front..] + slots[..back]
    }

    predicate Empty() {
      front == back
    }

    ghost predicate Full()
      requires Valid()
    {
      Next(back, |slots|) == front
    }

    /** The flag says exactly whether the ring is full. */
    ghost predicate FlagExact()
      requires Valid()
    {
      fullFlag == if Full() then 1 else 0
    }

    /** Writing a task at the back, moving the back, and raising the flag when that fills the ring. */
    function Store(task: int): Ring
      requires 0 <= back < |slots|
    {
      var back' := Next(back, |slots|);
      var flag := if Next(back', |slots|) == front then fullFlag + 1 else fullFlag;
      Ring(slots[back := task], front, back', flag)
    }

    /** Moving the front past the oldest task and lowering the flag if it is up. */
    function Drop(): Ring
      requires 0 <= front < |slots|
    {
      Ring(slots, Next(front, |slots|), back, if fullFlag > 0 then fullFlag - 1 else fullFlag)
    }
  }

  /** The remainder is the one number in range that differs by a multiple. */
  lemma RemainderIs(i: int, n: int, q: int, j: int)
    requires 0 <= j < n && i == q * n + j
    ensures i % n == j
  {
    assert (i / n) * n + i % n == q * n + j;
    Multiples(i / n, q, n);
  }

  /** Different multiples of n are at least n apart. */
  lemma Multiples(a: int, b: int, n: int)
    requires n > 0
    ensures a > b ==> a * n >= b * n + n
    ensures a < b ==> a * n + n <= b * n
  {
    if a > b {
      var d := a - b - 1;
      assert d * n >= 0 && a * n == (b + 1 + d) * n == b * n + n + d * n;
    } else if a < b {
      var d := b - a - 1;
      assert d * n >= 0 && b * n == (a + 1 + d) * n == a * n + n + d * n;
    }
  }

  lemma Wrapped(i: int, n: int)
    requires -n <= i < 2 * n
    ensures i % n == if i < 0 then i + n else if i < n then i else i - n
  {
    if i < 0 {
      RemainderIs(i, n, -1, i + n);
    } else if i < n {
      RemainderIs(i, n, 0, i);
    } else {
      RemainderIs(i, n, 1, i - n);
    }
  }

  /** Queued task k sits k places after the front, wrapping: the reference reading of the indices. */
  lemma ContentsAt(r: Ring, k: nat)
    requires r.Valid()
    requires k < |r.Contents()|
    ensures r.Contents()[k] == r.slots[(r.front + k) % r.Size()]
  {
    Wrapped(r.front + k, r.Size());
  }

  lemma OccupancyBounds(r: Ring)
    requires r.Valid()
    ensures |r.Contents()| == (r.back - r.front) % r.Size()
    ensures r.Empty() <==> r.Contents() == []
    ensures r.Full() <==> |r.Contents()| == r.Size() - 1
    ensures |r.Contents()| < r.Size()
  {
    Wrapped(r.back - r.front, r.Size());
  }

  /** A store appends exactly when the ring was not full; on a full ring it makes the ring look empty. */
  lemma StoreAppends(r: Ring, task: int)
    requires r.Valid()
    ensures r.Store(task).Valid()
    ensures r.Store(task).Contents() == r.Contents() + [task] <==> !r.Full()
    ensures r.Full() ==> r.Store(task).Contents() == []
  {
    if !r.Full() {
      assert r.Store(task).Contents() == r.Contents() + [task];
    }
  }

  /** A drop removes exactly the oldest task, and makes room. */
  lemma DropTakesHead(r: Ring)
    requires r.Valid() && !r.Empty()
    ensures r.Drop().Valid() && !r.Drop().Full()
    ensures r.Contents() == [r.slots[r.front]] + r.Drop().Contents()
  {
    assert r.Contents()[0] == r.slots[r.front];
    assert r.Contents()[1..] == r.Drop().Contents();
  }
}

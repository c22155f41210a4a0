/** The bounded ring: a fixed array holding a byte queue, with what happens on overflow decided by a policy. */
module RingBuffer {
  import opened Wire

  datatype OverflowPolicy = Block | DropNewest | DropOldest | Spool

  predicate DropsOnOverflow(policy: OverflowPolicy) {
    policy.DropNewest? || policy.DropOldest?
  }

  function Least(a: nat, b: nat): nat {
    if a < b then a else b
  }

  /** Array indices below twice the capacity, brought back into range. */
  function Wrap(i: nat, cap: nat): nat {
    if i < cap then i else i - cap
  }

  lemma WrapIsModulo(i: nat, cap: nat)
    requires i < 2 * cap
    ensures Wrap(i, cap) == i % cap
  {
    if i >= cap {
      assert i == cap * 1 + (i - cap);
    }
  }

  /** The `i`-th cell of the queue that starts at `head`. */
  function At(cells: seq<Byte>, head: nat, i: nat): Byte
    requires head < |cells| && i < |cells|
  {
    cells[Wrap(head + i, |cells|)]
  }

  /** The queue held by `size` cells of a ring from `head` on. */
  function Window(cells: seq<Byte>, head: nat, size: nat): (r: seq<Byte>)
    requires size <= |cells| && (head < |cells| || |cells| == head == 0)
    ensures |r| == size
  {
    seq(size, i requires 0 <= i < size => At(cells, head, i))
  }

  function First(s: seq<Byte>, n: nat): (r: seq<Byte>)
    ensures |r| == Least(|s|, n)
  {
    s[..Least(|s|, n)]
  }

  function Last(s: seq<Byte>, n: nat): (r: seq<Byte>)
    ensures |r| == Least(|s|, n)
  {
    s[|s| - Least(|s|, n)..]
  }

  /** The front of a sequence, and its back. */
  lemma FrontAndBack(s: seq<Byte>, n: nat)
    ensures s == First(s, n) + s[Least(|s|, n)..]
    ensures s == s[..|s| - Least(|s|, n)] + Last(s, n)
  {
  }

  lemma WindowDrop(cells: seq<Byte>, head: nat, size: nat, n: nat)
    requires n <= size <= |cells| && head < |cells|
    ensures Window(cells, Wrap(head + n, |cells|), size - n) == Window(cells, head, size)[n..]
  {
    var h := Wrap(head + n, |cells|);
    forall i | 0 <= i < size - n ensures Window(cells, h, size - n)[i] == Window(cells, head, size)[n..][i] {
      assert Wrap(h + i, |cells|) == Wrap(head + (n + i), |cells|);
    }
  }

  /** Writing `data` into the cells after the queue appends it. */
  lemma WindowAppend(cells: seq<Byte>, cells': seq<Byte>, head: nat, size: nat, data: seq<Byte>)
    requires |cells'| == |cells| && head < |cells| && size + |data| <= |cells|
    requires forall i :: 0 <= i < size ==> At(cells', head, i) == At(cells, head, i)
    requires forall i :: 0 <= i < |data| ==> At(cells', head, size + i) == data[i]
    ensures Window(cells', head, size + |data|) == Window(cells, head, size) + data
  {
    var r := Window(cells', head, size + |data|);
    forall i | 0 <= i < |r| ensures r[i] == (Window(cells, head, size) + data)[i] {
      if i >= size {
        assert At(cells', head, size + (i - size)) == data[i - size];
      }
    }
  }

  class BoundedBuffer {
    const capacity: nat
    const policy: OverflowPolicy
    const storage: array<Byte>
    var head: nat
    var size: nat
    var dropped: nat

    constructor (capacity: nat, policy: OverflowPolicy)
      ensures Valid() && fresh(storage) && Contents() == [] && dropped == 0
      ensures this.capacity == capacity && this.policy == policy
    {
      this.capacity, this.policy := capacity, policy;
      storage := new Byte[capacity](_ => 0);
      head, size, dropped := 0, 0, 0;
    }

    ghost predicate Valid()
      reads this
    {
      storage.Length == capacity && size <= capacity && (head < capacity || capacity == head == 0)
    }

    function Contents(): (s: seq<Byte>)
      requires Valid()
      reads this, storage
      ensures |s| == size
    {
      Window(storage[..], head, size)
    }

    /** `appendUpTo`: copies what fits behind the queue, in at most two runs. */
    method AppendUpTo(data: seq<Byte>) returns (n: nat)
      requires Valid()
      modifies this`size, storage
      ensures Valid() && n == Least(|data|, capacity - old(size))
      ensures Contents() == old(Contents()) + data[..n]
    {
      n := Least(|data|, capacity - size);
      if n == 0 {
        assert data[..n] == [];
        return;
      }
      hide Overlay, Window;
      ghost var before := storage[..];
      var tail := Wrap(head + size, capacity);
      var firstRun := Least(n, capacity - tail);
      CopyIn(tail, data[..firstRun]);
      OverlayNothing(storage[..]);
      if n > firstRun {
        CopyIn(0, data[firstRun..n]);
      }
      SplitRuns(data, n, firstRun);
      Appended(before, storage[..], head, size, data[..n], tail, firstRun);
      size := size + n;
    }

    /** `memcpy` into the cells from `at` on. */
    method CopyIn(at: nat, data: seq<Byte>)
      requires at + |data| <= storage.Length
      modifies storage
      ensures storage[..] == Overlay(old(storage[..]), at, data)
    {
      forall i | 0 <= i < |data| {
        storage[at + i] := data[i];
      }
    }

    /** `discardFront`. */
    method Drop(n: nat)
      requires Valid()
      modifies this`head, this`size
      ensures Valid() && Contents() == old(Contents())[Least(n, old(size))..]
    {
      var count := Least(n, size);
      if capacity == 0 {
        return;
      }
      WindowDrop(storage[..], head, size, count);
      head := Wrap(head + count, capacity);
      size := size - count;
    }

    method Clear()
      requires Valid()
      modifies this`head, this`size
      ensures Valid() && Contents() == []
    {
      head, size := 0, 0;
    }

    /** Appends as the policy says and returns how many bytes the caller need not keep. */
    method Append(data: seq<Byte>) returns (kept: nat)
      requires Valid()
      modifies this`head, this`size, this`dropped, storage
      ensures Valid()
      ensures !DropsOnOverflow(policy) ==>
                && kept == Least(|data|, capacity - old(size)) && dropped == old(dropped)
                && Contents() == old(Contents()) + data[..kept]
      ensures DropsOnOverflow(policy) ==>
                && kept == |data|
                && dropped + |Contents()| == old(dropped) + |old(Contents())| + |data|
      ensures policy.DropNewest? ==> Contents() == First(old(Contents()) + data, capacity)
      ensures policy.DropOldest? ==> Contents() == Last(old(Contents()) + data, capacity)
    {
      hide Window, First, Last;
      ghost var before := Contents();
      if capacity == 0 || data == [] {
        NothingFits(before, data, capacity);
        if DropsOnOverflow(policy) {
          dropped := dropped + |data|;
          return |data|;
        }
        return 0;
      }
      match policy
      case Block => kept := AppendUpTo(data);
      case Spool => kept := AppendUpTo(data);
      case DropNewest =>
        var accepted := AppendUpTo(data);
        FirstFits(before, data, capacity, accepted);
        dropped := dropped + (|data| - accepted);
        kept := |data|;
      case DropOldest =>
        if |data| >= capacity {
          dropped := dropped + size + (|data| - capacity);
          Clear();
          var _ := AppendUpTo(data[|data| - capacity..]);
          LastIsData(before, data, capacity);
          return |data|;
        }
        if |data| > capacity - size {
          var evict := |data| - (capacity - size);
          dropped := dropped + evict;
          Drop(evict);
        }
        LastEvicts(before, data, capacity);
        var _ := AppendUpTo(data);
        assert data[..|data|] == data;
        kept := |data|;
    }

    /** Takes up to `n` bytes from the front, run by run. */
    method Consume(n: nat) returns (bytes: seq<Byte>)
      requires Valid()
      modifies this`head, this`size
      ensures Valid() && bytes == old(Contents())[..Least(n, old(size))]
      ensures Contents() == old(Contents())[Least(n, old(size))..]
    {
      hide Window;
      ghost var before := Contents();
      var count := Least(n, size);
      bytes := [];
      while |bytes| < count
        invariant Valid() && |bytes| <= count && size == old(size)
        invariant head == Wrap(old(head) + |bytes|, capacity)
        invariant bytes == before[..|bytes|]
        decreases count - |bytes|
      {
        hide Window;
        var run := Least(count - |bytes|, capacity - head);
        RunIsNext(storage[..], old(head), size, |bytes|, run);
        bytes := bytes + storage[head..head + run];
        head := Wrap(head + run, capacity);
      }
      if capacity > 0 {
        WindowDrop(storage[..], old(head), size, count);
      }
      size := size - count;
    }

    /** The contiguous run at the front: a prefix of the queue, empty only when the queue is. */
    method Peek() returns (run: seq<Byte>)
      requires Valid()
      ensures run <= Contents() && (run == [] <==> Contents() == [])
    {
      if size == 0 {
        return [];
      }
      var count := Least(size, capacity - head);
      run := storage[head..head + count];
    }
  }

  function Overlay(cells: seq<Byte>, at: nat, data: seq<Byte>): (r: seq<Byte>)
    requires at + |data| <= |cells|
    ensures |r| == |cells|
  {
    cells[..at] + data + cells[at + |data|..]
  }

  /** Two copies, the second at the start of the array, place the data right behind the queue and leave the queue. */
  lemma Copied(cells: seq<Byte>, cells': seq<Byte>, head: nat, size: nat, data: seq<Byte>, tail: nat, firstRun: nat)
    requires |cells'| == |cells| && head < |cells| && size + |data| <= |cells| && |data| > 0
    requires tail == Wrap(head + size, |cells|) && firstRun == Least(|data|, |cells| - tail)
    requires cells' == Overlay(Overlay(cells, tail, data[..firstRun]), 0, data[firstRun..])
    ensures forall i :: 0 <= i < size ==> At(cells', head, i) == At(cells, head, i)
    ensures forall i :: 0 <= i < |data| ==> At(cells', head, size + i) == data[i]
  {
    forall i | 0 <= i < |data| ensures At(cells', head, size + i) == data[i] {
      CopiedData(cells, cells', head, size, data, tail, firstRun, i);
    }
    forall i | 0 <= i < size ensures At(cells', head, i) == At(cells, head, i) {
      CopiedOld(cells, cells', head, size, data, tail, firstRun, i);
    }
  }

  lemma Appended(cells: seq<Byte>, cells': seq<Byte>, head: nat, size: nat, data: seq<Byte>, tail: nat, firstRun: nat)
    requires |cells'| == |cells| && head < |cells| && size + |data| <= |cells| && |data| > 0
    requires tail == Wrap(head + size, |cells|) && firstRun == Least(|data|, |cells| - tail)
    requires cells' == Overlay(Overlay(cells, tail, data[..firstRun]), 0, data[firstRun..])
    ensures Window(cells', head, size + |data|) == Window(cells, head, size) + data
  {
    Copied(cells, cells', head, size, data, tail, firstRun);
    hide Overlay;
    WindowAppend(cells, cells', head, size, data);
  }

  lemma OverlayNothing(cells: seq<Byte>)
    ensures Overlay(cells, 0, []) == cells
  {
  }

  lemma SplitRuns(data: seq<Byte>, n: nat, k: nat)
    requires k <= n <= |data|
    ensures data[..n][..k] == data[..k] && data[..n][k..] == data[k..n] && (k == n ==> data[k..n] == [])
  {
  }

  lemma CopiedData(cells: seq<Byte>, cells': seq<Byte>, head: nat, size: nat, data: seq<Byte>, tail: nat, firstRun: nat, i: nat)
    requires |cells'| == |cells| && head < |cells| && size + |data| <= |cells| && i < |data|
    requires tail == Wrap(head + size, |cells|) && firstRun == Least(|data|, |cells| - tail)
    requires cells' == Overlay(Overlay(cells, tail, data[..firstRun]), 0, data[firstRun..])
    ensures At(cells', head, size + i) == data[i]
  {
    var j := Wrap(head + (size + i), |cells|);
    if i < firstRun {
      assert j == tail + i && j >= |data| - firstRun;
      assert Overlay(cells, tail, data[..firstRun])[j] == data[i];
    } else {
      assert j == i - firstRun;
    }
  }

  lemma CopiedOld(cells: seq<Byte>, cells': seq<Byte>, head: nat, size: nat, data: seq<Byte>, tail: nat, firstRun: nat, i: nat)
    requires |cells'| == |cells| && head < |cells| && size + |data| <= |cells| && i < size
    requires tail == Wrap(head + size, |cells|) && firstRun == Least(|data|, |cells| - tail)
    requires cells' == Overlay(Overlay(cells, tail, data[..firstRun]), 0, data[firstRun..])
    ensures At(cells', head, i) == At(cells, head, i)
  {
    var j := Wrap(head + i, |cells|);
    assert j >= |data| - firstRun && !(tail <= j < tail + firstRun);
    assert Overlay(cells, tail, data[..firstRun])[j] == cells[j];
  }

  lemma RunIsNext(cells: seq<Byte>, head: nat, size: nat, done: nat, run: nat)
    requires done <= size <= |cells| && head < |cells| && done + run <= size
    requires run <= |cells| - Wrap(head + done, |cells|)
    ensures var h := Wrap(head + done, |cells|);
            && Window(cells, head, size)[..done] + cells[h..h + run] == Window(cells, head, size)[..done + run]
            && Wrap(h + run, |cells|) == Wrap(head + (done + run), |cells|)
  {
    var h := Wrap(head + done, |cells|);
    var w := Window(cells, head, size);
    forall i | done <= i < done + run ensures w[i] == cells[h..h + run][i - done] {
      assert Wrap(head + i, |cells|) == h + (i - done);
    }
    assert cells[h..h + run] == w[done..done + run];
  }

  lemma NothingFits(before: seq<Byte>, data: seq<Byte>, cap: nat)
    requires |before| <= cap && (cap == 0 || data == [])
    ensures First(before + data, cap) == before && Last(before + data, cap) == before && before + data[..0] == before
  {
  }

  lemma FirstFits(before: seq<Byte>, data: seq<Byte>, cap: nat, n: nat)
    requires |before| <= cap && n == Least(|data|, cap - |before|)
    ensures First(before + data, cap) == before + data[..n]
  {
  }

  lemma LastIsData(before: seq<Byte>, data: seq<Byte>, cap: nat)
    requires |data| >= cap
    ensures Last(before + data, cap) == data[|data| - cap..] && [] + data[|data| - cap..][..cap] == data[|data| - cap..]
  {
  }

  lemma LastEvicts(before: seq<Byte>, data: seq<Byte>, cap: nat)
    requires |before| <= cap && |data| < cap
    ensures var evict := if |data| > cap - |before| then |data| - (cap - |before|) else 0;
            Last(before + data, cap) == before[evict..] + data
  {
  }
}

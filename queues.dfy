/**
 * The ring buffers of src/lib.ts. `ByteQueue` and `FloatQueue` share their index
 * logic, so both are `Queue<T>`: a fixed array of `size` slots with `start`,
 * `end` and `length`. The source advances an index below `size` with
 * `(i + 1) & (size - 1)`; for the power-of-two sizes the constructor admits that
 * is `i + 1`, or 0 when `i + 1 == size`, which is what `Wrap` writes.
 */
module Queues {
  import opened Wrappers

  /** `size & (size - 1) == 0` on a 32-bit size, excluding 0. */
  predicate IsPowerOfTwoSize(size: nat)
  {
    0 < size < 0x1_0000_0000 && (size as bv32) & (size as bv32 - 1) == 0
  }

  /** An index below `2 * size` brought back below `size`. */
  function Wrap(i: nat, size: nat): (r: nat)
    requires 0 < size && i < 2 * size
    ensures r < size && (r == i || r == i - size)
  {
    if i >= size then i - size else i
  }

  /** The `n` items of a ring buffer `buf` that start at slot `start`, in order. */
  function RingItems<T>(buf: seq<T>, start: nat, n: nat): (r: seq<T>)
    requires start < |buf| && n <= |buf|
    ensures |r| == n
    ensures forall i :: 0 <= i < n ==> r[i] == buf[Wrap(start + i, |buf|)]
  {
    seq(n, i requires 0 <= i < n => buf[Wrap(start + i, |buf|)])
  }

  class Queue<T(0)> {
    const size: nat
    const data: array<T>
    var start: nat
    var end: nat
    var length: nat

    ghost predicate Valid()
      reads this
    {
      data.Length == size && 0 < size && start < size && end < size && length <= size &&
      end == Wrap(start + length, size)
    }

    /** The queued items, oldest first. */
    ghost function Contents(): (s: seq<T>)
      reads this, data
      requires Valid()
      ensures |s| == length
    {
      RingItems(data[..], start, length)
    }

    /** `new ByteQueue(size)` / `new FloatQueue(size)`; the source throws unless `size & (size - 1) == 0`. */
    constructor(size: nat)
      requires IsPowerOfTwoSize(size)
      ensures Valid() && fresh(data) && this.size == size && Contents() == []
    {
      this.size := size;
      data := new T[size];
      start, end, length := 0, 0, 0;
    }

    /** `push(item)`: append; on a full queue the oldest item is overwritten and the length stays `size`. */
    method Push(item: T)
      requires Valid()
      modifies this`start, this`end, this`length, data
      ensures Valid()
      ensures old(length) < size ==> length == old(length) + 1 && Contents() == old(Contents()) + [item]
      ensures old(length) == size ==> length == size && Contents() == old(Contents())[1..] + [item]
    {
      if length == size {
        Overwrite(item);
      } else {
        Append(item);
      }
    }

    /** `push` with room left: the item goes in the slot after the newest. */
    method Append(item: T)
      requires Valid() && length < size
      modifies this`end, this`length, data
      ensures Valid() && start == old(start)
      ensures length == old(length) + 1 && Contents() == old(Contents()) + [item]
    {
      ghost var was := Contents();
      length := length + 1;
      data[end] := item;
      end := Wrap(end + 1, size);
      forall i | 0 <= i < length
        ensures Contents()[i] == (was + [item])[i]
      {
        if i < |was| { assert Wrap(start + i, size) != old(end); }
      }
    }

    /** `push` on a full queue: the start moves on and the item takes the oldest one's slot. */
    method Overwrite(item: T)
      requires Valid() && length == size
      modifies this`start, this`end, data
      ensures Valid() && length == size
      ensures Contents() == old(Contents())[1..] + [item]
    {
      ghost var was := Contents();
      start := Wrap(start + 1, size);
      data[end] := item;
      end := Wrap(end + 1, size);
      forall i | 0 <= i < length
        ensures Contents()[i] == (was[1..] + [item])[i]
      {
        if i < length - 1 {
          assert Wrap(start + i, size) == Wrap(old(start) + i + 1, size);
        }
      }
    }

    /** `shift()`: remove and return the oldest item; `None` (-1 / undefined in the source) when empty. */
    method Shift() returns (item: Option<T>)
      requires Valid()
      modifies this`start, this`length
      ensures Valid()
      ensures old(length) == 0 ==> item == None && start == old(start) && length == 0
      ensures old(length) > 0 ==> item == Some(old(Contents())[0]) && Contents() == old(Contents())[1..]
    {
      if length == 0 {
        return None;
      }
      ghost var was := Contents();
      item := Some(data[start]);
      start := Wrap(start + 1, size);
      length := length - 1;
      forall i | 0 <= i < length
        ensures Contents()[i] == was[1..][i]
      {
        assert Wrap(start + i, size) == Wrap(old(start) + i + 1, size);
      }
    }

    /** `peek()`: what `shift()` would return, without removing it. */
    function Peek(): (item: Option<T>)
      reads this, data
      requires Valid()
      ensures length == 0 <==> item == None
      ensures length > 0 ==> item == Some(Contents()[0])
    {
      if length == 0 then None else Some(data[start])
    }

    /** `clear()`: empty the queue and reset both indices. */
    method Clear()
      requires Valid()
      modifies this`start, this`end, this`length
      ensures Valid() && start == 0 && end == 0 && Contents() == []
    {
      start, end, length := 0, 0, 0;
    }

    /**
     * `FloatQueue.shift_block(count)`: a fresh array of `count` slots holding the
     * `min(count, length)` oldest items, the rest left at the typed array's zero
     * (`fill` here). `end` is not touched.
     */
    method ShiftBlock(count: nat, fill: T) returns (slice: array<T>)
      requires Valid()
      modifies this`start, this`length
      ensures Valid() && fresh(slice) && slice.Length == count
      ensures var n := if count < old(length) then count else old(length);
        slice[..n] == old(Contents())[..n] &&
        (forall i :: n <= i < count ==> slice[i] == fill) &&
        Contents() == old(Contents())[n..]
    {
      ghost var was := Contents();
      var n := if count < length then count else length;
      var sliceEnd;
      slice, sliceEnd := CopyOldest(count, n, fill);
      start := sliceEnd;
      length := length - n;
      forall i | 0 <= i < length
        ensures Contents()[i] == was[n..][i]
      {
        assert Wrap(start + i, size) == Wrap(old(start) + n + i, size);
      }
    }

    /** The copying half of `shift_block`: the slice, and where the new `start` lies. */
    method CopyOldest(count: nat, n: nat, fill: T) returns (slice: array<T>, sliceEnd: nat)
      requires Valid() && n <= length && n <= count
      ensures fresh(slice) && slice.Length == count
      ensures slice[..n] == Contents()[..n]
      ensures forall i :: n <= i < count ==> slice[i] == fill
      ensures sliceEnd == Wrap(start + n, size)
    {
      ghost var was := Contents();
      slice := new T[count](_ => fill);
      sliceEnd := start + n;
      var firstPart := if sliceEnd < size then n else size - start;
      var j := 0;
      while j < firstPart
        invariant 0 <= j <= firstPart
        invariant forall i :: 0 <= i < j ==> slice[i] == was[i]
        invariant forall i :: n <= i < count ==> slice[i] == fill
      {
        assert was[j] == data[start + j];
        slice[j] := data[start + j];
        j := j + 1;
      }
      if sliceEnd >= size {
        sliceEnd := sliceEnd - size;
        var k := 0;
        while k < sliceEnd
          invariant 0 <= k <= sliceEnd
          invariant forall i :: 0 <= i < firstPart + k ==> slice[i] == was[i]
          invariant forall i :: n <= i < count ==> slice[i] == fill
        {
          assert was[firstPart + k] == data[k];
          slice[firstPart + k] := data[k];
          k := k + 1;
        }
        assert firstPart + sliceEnd == n;
      }
      assert slice[..n] == was[..n];
    }
  }

  /** The last `n` items of `items` (all of them when there are fewer). */
  function LastItems<T>(items: seq<T>, n: nat): (r: seq<T>)
    ensures |r| == if |items| < n then |items| else n
  {
    if |items| <= n then items else items[|items| - n..]
  }

  /** `CircularQueue`: a log ring over a growing array; `add` overwrites at `index`. */
  class CircularQueue<T> {
    const size: nat
    var data: seq<T>
    var index: nat

    /** `index` points into the array or just past its end. */
    ghost predicate Valid()
      reads this
    {
      0 < size && index < size && index <= |data|
    }

    /**
     * The log is still filling up or holds exactly `size` items, as it does
     * when only `add` and `clear` have been used since construction.
     */
    ghost predicate Filling()
      reads this
    {
      |data| <= size && (|data| < size ==> index == |data|)
    }

    constructor(size: nat)
      requires size > 0
      ensures Valid() && Filling() && this.size == size && data == [] && index == 0
    {
      this.size := size;
      data := [];
      index := 0;
    }

    /** `add(item)`: write at `index` (extending the array while it is short), then advance `index` mod `size`. */
    method Add(item: T)
      requires Valid()
      modifies this`data, this`index
      ensures Valid() && (old(Filling()) ==> Filling())
      ensures data == if old(index) < |old(data)| then old(data)[old(index) := item] else old(data) + [item]
      ensures index == if old(index) + 1 == size then 0 else old(index) + 1
    {
      if index < |data| {
        data := data[index := item];
      } else {
        data := data + [item];
      }
      ModuloOfSuccessor(index, size);
      index := (index + 1) % size;
    }

    /** `toArray()`: the items from `index` on, then those before it. */
    function ToArray(): (r: seq<T>)
      reads this
      requires Valid()
      ensures |r| == |data|
      ensures forall i :: 0 <= i < |r| ==> r[i] == data[Wrap(index + i, |data|)]
    {
      data[index..] + data[..index]
    }

    /** `clear()`. */
    method Clear()
      requires Valid()
      modifies this`data, this`index
      ensures Valid() && Filling() && data == [] && index == 0
    {
      data := [];
      index := 0;
    }

    /** `set(new_data)`: the array is replaced and `index` reset, so `toArray()` gives `newData` back. */
    method Set(newData: seq<T>)
      requires Valid()
      modifies this`data, this`index
      ensures Valid() && data == newData && index == 0
      ensures ToArray() == newData
    {
      data := newData;
      index := 0;
      assert data[..0] == [] && data[0..] == newData;
    }

    /**
     * The log keeps the newest `size` items in arrival order: if `ToArray()` holds
     * the last items of `history`, it holds the last items of `history + [item]`
     * after `Add(item)`.
     */
    method AddKeepsHistory(item: T, ghost history: seq<T>)
      requires Valid() && Filling() && ToArray() == LastItems(history, size)
      modifies this`data, this`index
      ensures Valid() && Filling() && ToArray() == LastItems(history + [item], size)
    {
      ghost var before := ToArray();
      Add(item);
      ghost var h := history + [item];
      if |old(data)| < size {
        assert old(data[..index]) == old(data) && old(data[index..]) == [];
        assert before == old(data);
        assert |history| < size;
        if |data| < size {
          assert data[index..] == [] && data[..index] == data;
        } else {
          assert index == 0 && data[..index] == [] && data[index..] == data;
        }
        assert ToArray() == data;
      } else {
        assert |before| == size;
        forall i | 0 <= i < size
          ensures ToArray()[i] == LastItems(h, size)[i]
        {
          if i < size - 1 {
            assert Wrap(index + i, size) == Wrap(old(index) + i + 1, size);
          } else {
            assert Wrap(index + i, size) == old(index);
          }
        }
      }
    }
  }

  /** For an index below the modulus, `(i + 1) % m` is `i + 1` or, at the top, 0. */
  lemma ModuloOfSuccessor(i: nat, m: nat)
    requires i < m
    ensures (i + 1) % m == if i + 1 == m then 0 else i + 1
  {
  }
}

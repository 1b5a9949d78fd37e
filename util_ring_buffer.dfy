/**
 * The fixed-size ring buffer of the `util` crate: `SIZE` slots in an array,
 * a cursor `current`, and a borrowing iterator that walks the slots with
 * wrap-around and stops at a precomputed last index.
 */
module UtilRingBuffer {
  import opened Wrappers
  import opened RingIndex

  /**
   * `RingBuffer<T, SIZE>`. The array is fixed for the buffer's lifetime
   * (its length is `SIZE`); its slots and the cursor change.
   */
  class RingBuffer<T> {
    const buffer: array<T>
    var current: nat

    ghost predicate Valid()
      reads this
    {
      0 < buffer.Length && current < buffer.Length
    }

    /** `RingBuffer::new(values)`: the given contents, cursor at slot 0. */
    constructor New(values: seq<T>)
      requires |values| > 0
      ensures Valid() && fresh(buffer)
      ensures buffer[..] == values && current == 0
    {
      buffer := new T[|values|](i requires 0 <= i < |values| => values[i]);
      current := 0;
    }

    /** `Default::default()`: every slot holds `T::default()`, cursor at 0. */
    constructor Default(size: nat, default: T)
      requires size > 0
      ensures Valid() && fresh(buffer)
      ensures buffer[..] == seq(size, _ => default) && current == 0
    {
      buffer := new T[size](_ => default);
      current := 0;
    }

    /** `current()`: the slot under the cursor. */
    function Current(): T
      reads this, buffer
      requires Valid()
    {
      buffer[current]
    }

    /** A write through the reference returned by `current_mut()`. */
    method SetCurrent(value: T)
      requires Valid()
      modifies buffer
      ensures Valid() && current == old(current)
      ensures buffer[..] == old(buffer[..])[current := value]
      ensures Current() == value
    {
      buffer[current] := value;
    }

    /** `next()`: advance the cursor by one slot, wrapping at `SIZE`. */
    method Next()
      requires Valid()
      modifies this`current
      ensures Valid()
      ensures current == (old(current) + 1) % buffer.Length
      ensures current == Succ(old(current), buffer.Length)
    {
      current := Succ(current, buffer.Length);
    }

    /** `iter()`: start at the cursor, stop before the slot preceding it. */
    method Iter() returns (it: Iter<T>)
      requires Valid()
      ensures fresh(it) && it.Valid() && it.data == buffer
      ensures it.index == current && it.lastIndex == Pred(current, buffer.Length)
      ensures it.Remaining() == Walk(current, buffer.Length - 1, buffer.Length)
    {
      it := new Iter(buffer, current, Pred(current, buffer.Length));
      WalkAllButPred(current, buffer.Length - 1, buffer.Length);
    }

    /**
     * `iter_fifo()`: start at the slot after the cursor (the one returned
     * by `current()` longest ago) and stop before the cursor itself.
     */
    method IterFifo() returns (it: Iter<T>)
      requires Valid()
      ensures fresh(it) && it.Valid() && it.data == buffer
      ensures it.index == Succ(current, buffer.Length) && it.lastIndex == current
      ensures it.Remaining() == Walk(Succ(current, buffer.Length), buffer.Length - 1, buffer.Length)
    {
      var start := Succ(current, buffer.Length);
      it := new Iter(buffer, start, Pred(start, buffer.Length));
      WalkAllButPred(start, buffer.Length - 1, buffer.Length);
    }
  }

  /** `Iter<'a, T, SIZE>`: a cursor over the buffer and the index it stops at. */
  class Iter<T> {
    const data: array<T>
    var index: nat
    const lastIndex: nat

    ghost predicate Valid()
      reads this
    {
      0 < data.Length && index < data.Length && lastIndex < data.Length
    }

    /** The slots still to be yielded, in order. */
    ghost function Remaining(): seq<nat>
      reads this
      requires Valid()
    {
      Walk(index, Distance(index, lastIndex, data.Length), data.Length)
    }

    constructor (data: array<T>, index: nat, lastIndex: nat)
      requires index < data.Length && lastIndex < data.Length
      ensures Valid() && this.data == data && this.index == index && this.lastIndex == lastIndex
    {
      this.data := data;
      this.index := index;
      this.lastIndex := lastIndex;
    }

    /**
     * `Iterator::next`: `None` exactly at the last index; otherwise the slot
     * at `index`, after which `index` steps forward with wrap-around.
     */
    method Next() returns (r: Option<T>)
      requires Valid()
      modifies this`index
      ensures Valid()
      ensures r.None? <==> old(index) == lastIndex
      ensures r.None? ==> index == old(index) && Remaining() == []
      ensures r.Some? ==> r.value == data[old(index)] && index == (old(index) + 1) % data.Length
      ensures r.Some? ==> old(Remaining()) != [] && old(Remaining())[0] == old(index)
      ensures r.Some? ==> Remaining() == old(Remaining())[1..]
    {
      if index == lastIndex {
        r := None;
      } else {
        WalkStep(index, lastIndex, data.Length);
        r := Some(data[index]);
        index := Succ(index, data.Length);
      }
    }
  }
}

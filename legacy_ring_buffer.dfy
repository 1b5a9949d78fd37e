/**
 * The older ring buffer of the application crate: `SIZE` slots, a cursor,
 * and no iterator.
 */
module LegacyRingBuffer {
  import opened RingIndex

  /** `RingBuffer<T, SIZE>`: a fixed array of slots and a cursor into it. */
  class RingBuffer<T> {
    const buffer: array<T>
    var current: nat

    ghost predicate Valid()
      reads this
    {
      0 < buffer.Length && current < buffer.Length
    }

    /** `RingBuffer::new(values)`: the given contents, cursor at slot 0. */
    constructor New(values: seq<T>)
      requires |values| > 0
      ensures Valid() && fresh(buffer)
      ensures buffer[..] == values && current == 0
    {
      buffer := new T[|values|](i requires 0 <= i < |values| => values[i]);
      current := 0;
    }

    /** `Default::default()`: every slot holds `T::default()`, cursor at 0. */
    constructor Default(size: nat, default: T)
      requires size > 0
      ensures Valid() && fresh(buffer)
      ensures buffer[..] == seq(size, _ => default) && current == 0
    {
      buffer := new T[size](_ => default);
      current := 0;
    }

    /** `current()`: the slot under the cursor. */
    function Current(): T
      reads this, buffer
      requires Valid()
    {
      buffer[current]
    }

    /** A write through the reference returned by `current_mut()`. */
    method SetCurrent(value: T)
      requires Valid()
      modifies buffer
      ensures Valid() && current == old(current)
      ensures buffer[..] == old(buffer[..])[current := value]
      ensures Current() == value
    {
      buffer[current] := value;
    }

    /** `next()`: `current = (current + 1) % SIZE`. */
    method Next()
      requires Valid()
      modifies this`current
      ensures Valid()
      ensures current == (old(current) + 1) % buffer.Length
      ensures current == Succ(old(current), buffer.Length)
    {
      current := Succ(current, buffer.Length);
    }
  }
}

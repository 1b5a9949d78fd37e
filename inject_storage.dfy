/**
 * `ErasedStorage` of the inject crate: a registry of values keyed by their
 * type, with one table for sized values and another for trait objects.
 * Types are modelled by a key naming them; the registry's invariant that
 * the value under a type's key has that type is what makes the source's
 * `downcast_ref(..).unwrap()` safe, and the model does not need it.
 */
module InjectStorage {
  import opened Wrappers

  /** `TypeId`: a named type, or `RwLock<T>` of another type. */
  datatype TypeKey = Named(name: string) | RwLockOf(inner: TypeKey)

  class ErasedStorage<V> {
    var items: map<TypeKey, V>
    var dynItems: map<TypeKey, V>

    /** `new` / `Default`: both tables empty. */
    constructor ()
      ensures items == map[] && dynItems == map[]
    {
      items := map[];
      dynItems := map[];
    }

    /** `put::<T>`: store under `T`, replacing an earlier value of that type. */
    method Put(t: TypeKey, item: V)
      modifies this`items
      ensures items == old(items)[t := item]
      ensures Get(t) == Some(item)
      ensures forall u :: u != t ==> Get(u) == old(Get(u))
      ensures forall u :: GetDyn(u) == old(GetDyn(u))
    {
      items := items[t := item];
    }

    /** `put_sync::<T>`: store under `RwLock<T>`. */
    method PutSync(t: TypeKey, item: V)
      modifies this`items
      ensures items == old(items)[RwLockOf(t) := item]
      ensures ReadSync(t) == Some(item)
      ensures Get(t) == old(Get(t))
    {
      LockIsAnotherType(t);
      Put(RwLockOf(t), item);
    }

    /** `put_dyn::<T>`: store a trait object under `T` in the second table. */
    method PutDyn(t: TypeKey, item: V)
      modifies this`dynItems
      ensures dynItems == old(dynItems)[t := item]
      ensures GetDyn(t) == Some(item)
      ensures forall u :: u != t ==> GetDyn(u) == old(GetDyn(u))
      ensures forall u :: Get(u) == old(Get(u))
    {
      dynItems := dynItems[t := item];
    }

    /** `get::<T>`: the value stored under `T`, if any. */
    function Get(t: TypeKey): (r: Option<V>)
      reads this
      ensures r.Some? <==> t in items
      ensures r.Some? ==> r.value == items[t]
    {
      if t in items then Some(items[t]) else None
    }

    /** `read_sync::<T>`: the value behind the `RwLock<T>` stored for `T`. */
    function ReadSync(t: TypeKey): (r: Option<V>)
      reads this
      ensures r == Get(RwLockOf(t))
      ensures r.Some? <==> RwLockOf(t) in items
    {
      Get(RwLockOf(t))
    }

    /** `get_dyn::<T>`: the trait object stored under `T`, if any. */
    function GetDyn(t: TypeKey): (r: Option<V>)
      reads this
      ensures r.Some? <==> t in dynItems
      ensures r.Some? ==> r.value == dynItems[t]
    {
      if t in dynItems then Some(dynItems[t]) else None
    }

    /**
     * A write through the reference `get_mut::<T>` returns: `found` tells
     * whether there was one; only the value of `T` changes.
     */
    method GetMut(t: TypeKey, update: V -> V) returns (found: bool)
      modifies this`items
      ensures found <==> t in old(items)
      ensures found ==> items == old(items)[t := update(old(items)[t])]
      ensures !found ==> items == old(items)
    {
      found := t in items;
      if found {
        items := items[t := update(items[t])];
      }
    }

    /** A write through the guard `write_sync::<T>` returns: `get_mut` of `RwLock<T>`. */
    method WriteSync(t: TypeKey, update: V -> V) returns (found: bool)
      modifies this`items
      ensures found <==> RwLockOf(t) in old(items)
      ensures found ==> items == old(items)[RwLockOf(t) := update(old(items)[RwLockOf(t)])]
      ensures found ==> ReadSync(t) == Some(update(old(ReadSync(t)).value))
      ensures !found ==> items == old(items)
    {
      found := GetMut(RwLockOf(t), update);
    }
  }

  /** A type is never its own lock: `put_sync::<T>` is invisible to `get::<T>`. */
  lemma {:induction false} LockIsAnotherType(t: TypeKey)
    ensures RwLockOf(t) != t
  {
    assert t < RwLockOf(t);
  }
}

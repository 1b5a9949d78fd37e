/**
 * `AssetStorage` of the assets crate: assets of one type keyed by handle,
 * each entry `Pending` while a background task loads it, then `Ready`
 * with the asset or `Failed` with the error. The type-erased map of
 * containers, the locks and the tasks are not modelled: one
 * `AssetStorage<A>` is the container of asset type `A`, and a task's
 * completion is the call of `ResolveAssetLoad` it ends with.
 */
module AssetStorage {
  import opened Wrappers

  /**
   * `Handle<A>`: a slot-map key. A `HopSlotMap` never hands out a key it
   * has handed out before (removed slots come back with a new version),
   * so keys are modelled as a counter.
   */
  datatype Handle = Handle(key: nat)

  /** `AssetEntry`: the task and the channel of a pending entry are abstract. */
  datatype AssetEntry<A> = Pending | Failed(error: string) | Ready(asset: A)

  /** `AssetRef`: what a caller of `with` sees of an entry. */
  datatype AssetRef<A> = RefPending | RefFailed(error: string) | RefReady(asset: A)

  /** The broadcast message a finished load sends to waiting threads. */
  datatype AssetLoadMessage = Success | Fail

  /** `PollResult`: the state of an asset, a missing one counting as failed. */
  datatype PollResult = PollPending | PollFailed | PollReady

  /** `AssetEntry::as_ref`: the entry without its task and channel. */
  function AsRef<A>(e: AssetEntry<A>): (r: AssetRef<A>)
    ensures r.RefPending? <==> e.Pending?
    ensures r.RefFailed? <==> e.Failed?
    ensures r.RefReady? <==> e.Ready?
    ensures e.Failed? ==> r.error == e.error
    ensures e.Ready? ==> r.asset == e.asset
  {
    match e
    case Pending => RefPending
    case Failed(err) => RefFailed(err)
    case Ready(a) => RefReady(a)
  }

  /** `AssetEntry::success`. */
  predicate IsSuccess<A>(e: AssetEntry<A>) {
    e.Ready?
  }

  /** The message `resolve_asset_load` broadcasts for a load result. */
  function LoadMessage<A>(result: Result<A>): (m: AssetLoadMessage)
    ensures m == Success <==> result.Ok?
  {
    if result.Ok? then Success else Fail
  }

  /** The entry `resolve_asset_load` stores for a load result. */
  function Resolved<A>(result: Result<A>): (e: AssetEntry<A>)
    ensures e.Ready? <==> result.Ok?
    ensures e.Ready? ==> e.asset == result.value
    ensures e.Failed? ==> e.error == result.message
  {
    if result.Ok? then Ready(result.value) else Failed(result.message)
  }

  /** `with` over a given set of entries. */
  function EntryWith<A, R>(entries: map<Handle, AssetEntry<A>>, handle: Handle, f: AssetRef<A> -> R): (r: Option<R>)
    ensures r.None? <==> handle !in entries
    ensures r.Some? ==> r.value == f(AsRef(entries[handle]))
  {
    if handle in entries then Some(f(AsRef(entries[handle]))) else None
  }

  /** `with_if_ready` over a given set of entries: `with` with a closure that looks for `Ready`. */
  function EntryWithIfReady<A, R>(entries: map<Handle, AssetEntry<A>>, handle: Handle, f: A -> R): (r: Option<R>)
    ensures r.Some? <==> handle in entries && entries[handle].Ready?
    ensures r.Some? ==> r.value == f(entries[handle].asset)
  {
    var nested := EntryWith(entries, handle, (view: AssetRef<A>) => if view.RefReady? then Some(f(view.asset)) else None);
    if nested.Some? then nested.value else None
  }

  /** The panic message of `Option::unwrap` on `None`. */
  const UNWRAP_NONE: string := "called `Option::unwrap()` on a `None` value"

  class AssetStorage<A> {
    var items: map<Handle, AssetEntry<A>>
    /** The next key the slot map will hand out. */
    var nextKey: nat
    /** The messages broadcast so far, in order. */
    var sent: seq<AssetLoadMessage>

    ghost predicate Valid()
      reads this
    {
      forall h :: h in items ==> h.key < nextKey
    }

    /** An empty container. */
    constructor ()
      ensures Valid() && items == map[] && sent == []
    {
      items := map[];
      nextKey := 0;
      sent := [];
    }

    /**
     * `load`: insert a fresh `Pending` entry (its loading task spawned in
     * the background) and return its handle. Nothing else changes.
     */
    method Load() returns (handle: Handle)
      requires Valid()
      modifies this`items, this`nextKey
      ensures Valid()
      ensures handle !in old(items)
      ensures items == old(items)[handle := Pending]
      ensures Poll(handle) == PollPending && !IsReady(handle)
    {
      handle := Handle(nextKey);
      items := items[handle := Pending];
      nextKey := nextKey + 1;
    }

    /**
     * `resolve_asset_load`, run by the loading task when it finishes: the
     * entry becomes `Ready` or `Failed` and the outcome is broadcast. The
     * entry is looked up with `unwrap`, so a load whose handle was deleted
     * in the meantime panics.
     */
    method ResolveAssetLoad(key: Handle, result: Result<A>) returns (r: Run<Unit>)
      requires Valid()
      modifies this`items, this`sent
      ensures Valid()
      ensures r.Panics? <==> key !in old(items)
      ensures r.Panics? ==> r.reason == UNWRAP_NONE && items == old(items) && sent == old(sent)
      ensures r.Returns? ==> && items == old(items)[key := Resolved(result)]
                             && sent == old(sent) + [LoadMessage(result)]
      ensures r.Returns? ==> (IsReady(key) <==> result.Ok?)
    {
      if key !in items {
        return Panics(UNWRAP_NONE);
      }
      sent := sent + [LoadMessage(result)];
      items := items[key := Resolved(result)];
      r := Returns(Unit);
    }

    /** `poll_asset`: a missing handle reads as failed. */
    function Poll(handle: Handle): (p: PollResult)
      reads this
      ensures p == PollPending <==> handle in items && items[handle].Pending?
      ensures p == PollReady <==> handle in items && items[handle].Ready?
      ensures p == PollFailed <==> handle !in items || items[handle].Failed?
    {
      if handle !in items then PollFailed
      else match items[handle]
        case Pending => PollPending
        case Failed(_) => PollFailed
        case Ready(_) => PollReady
    }

    /** `with`: `f` applied to the entry's view, or `None` for a missing handle. */
    function With<R>(handle: Handle, f: AssetRef<A> -> R): (r: Option<R>)
      reads this
      ensures r.None? <==> handle !in items
      ensures r.Some? ==> r.value == f(AsRef(items[handle]))
    {
      EntryWith(items, handle, f)
    }

    /** `with_if_ready`: `f` applied to the asset, only when the entry is `Ready`. */
    function WithIfReady<R>(handle: Handle, f: A -> R): (r: Option<R>)
      reads this
      ensures r.Some? <==> handle in items && items[handle].Ready?
      ensures r.Some? ==> r.value == f(items[handle].asset)
    {
      EntryWithIfReady(items, handle, f)
    }

    /** `is_ready`: whether `with_if_ready` would call its closure. */
    function IsReady(handle: Handle): (b: bool)
      reads this
      ensures b <==> handle in items && items[handle].Ready?
    {
      WithIfReady(handle, (_: A) => Unit).Some?
    }

    /**
     * `with_when_ready`. A pending entry blocks until its load's message
     * arrives; `received` is what the wait returned (`Err` when the
     * channel closed) and `resolved` the entries the container holds when
     * the waiting thread takes the lock again for `with_if_ready`. A
     * missing or failed entry returns `None` at once.
     */
    function WithWhenReady<R>(handle: Handle, f: A -> R, received: Result<AssetLoadMessage>,
                              resolved: map<Handle, AssetEntry<A>>): (r: Option<R>)
      reads this
      ensures Poll(handle) == PollFailed ==> r.None?
      ensures Poll(handle) == PollReady ==> r == Some(f(items[handle].asset))
      ensures Poll(handle) == PollPending && received != Ok(Success) ==> r.None?
      ensures Poll(handle) == PollPending && received == Ok(Success) ==>
                && (r.Some? <==> handle in resolved && resolved[handle].Ready?)
                && (r.Some? ==> r.value == f(resolved[handle].asset))
    {
      match Poll(handle)
      case PollPending =>
        if received.Err? then None
        else if received.value == Success then EntryWithIfReady(resolved, handle, f)
        else None
      case PollFailed => None
      case PollReady => WithIfReady(handle, f)
    }

    /** `clear_failed_assets`: drop exactly the `Failed` entries. */
    method ClearFailedAssets()
      requires Valid()
      modifies this`items
      ensures Valid()
      ensures items == map h | h in old(items) && !old(items)[h].Failed? :: old(items)[h]
      ensures forall h :: h in old(items) ==> (h in items <==> !old(items)[h].Failed?)
      ensures forall h :: IsReady(h) == old(IsReady(h))
    {
      items := map h | h in items && !items[h].Failed? :: items[h];
    }

    /** `delete_asset`: remove one handle; it is gone for good. */
    method DeleteAsset(handle: Handle)
      requires Valid()
      modifies this`items
      ensures Valid()
      ensures items == old(items) - {handle}
      ensures With(handle, (view: AssetRef<A>) => view) == None && !IsReady(handle)
    {
      items := items - {handle};
    }

    /** Whatever the closure, `is_ready` and `with_if_ready` agree. */
    lemma IsReadyIffWithIfReady<R>(handle: Handle, f: A -> R)
      ensures IsReady(handle) <==> WithIfReady(handle, f).Some?
    {
    }

    /**
     * `with_when_ready` on a settled entry never waits: neither the
     * message nor what happens to the container afterwards plays a part.
     */
    lemma SettledEntriesDoNotWait<R>(handle: Handle, f: A -> R, m1: Result<AssetLoadMessage>, m2: Result<AssetLoadMessage>,
                                     e1: map<Handle, AssetEntry<A>>, e2: map<Handle, AssetEntry<A>>)
      requires Poll(handle) != PollPending
      ensures WithWhenReady(handle, f, m1, e1) == WithWhenReady(handle, f, m2, e2)
    {
    }

    /**
     * A thread waiting in `with_when_ready` on a pending entry, while the
     * loading task runs `resolve_asset_load`: the task stores the entry
     * and sends the message under the container's lock, so the waiter
     * receives that message and then finds the stored entry. It gets
     * `f` of the asset exactly when the load succeeded.
     */
    lemma WaitSeesResolvedLoad<R>(handle: Handle, f: A -> R, result: Result<A>)
      requires Poll(handle) == PollPending
      ensures var r := WithWhenReady(handle, f, Ok(LoadMessage(result)), items[handle := Resolved(result)]);
              && (r.Some? <==> result.Ok?)
              && (r.Some? ==> r.value == f(result.value))
    {
    }
  }
}

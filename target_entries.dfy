/**
 * The vocabulary shared by the three render-target registries: sizes, size
 * groups, registry entries with their `recreate` closures, and the loop
 * that resizes every entry of one size group.
 */
module TargetEntries {
  import opened Wrappers

  /** `TargetSize` (a `(u32, u32)` pair in the oldest registry). */
  datatype TargetSize = TargetSize(width: nat, height: nat)

  /** `TargetSize::default()` and the `(0, 0)` of the oldest registry. */
  const ZERO_SIZE: TargetSize := TargetSize(0, 0)

  /** `SizeGroup`: which resolution a target follows. */
  datatype SizeGroup = RenderResolution | OutputResolution | Custom(size: TargetSize)

  /**
   * A `PairedImageView`, seen only through its identity: allocation is a
   * foreign call, so images are whatever the `recreate` closure returns.
   */
  datatype PairedImageView = PairedImageView(id: nat)

  /**
   * `RenderTargetEntry`: the group the target follows, the current image,
   * and the closure that allocates a new image of a given size.
   */
  datatype Entry = Entry(sizeGroup: SizeGroup, target: PairedImageView,
                         recreate: TargetSize -> Result<PairedImageView>)

  /** What `resize_target` leaves behind: the updated entry and the image to delete later. */
  datatype Resized = Resized(entry: Entry, retired: PairedImageView)

  /**
   * The part of `resize_target` all three registries share: allocate at the
   * new size, swap the new image in, hand back the old one. The group is
   * left alone; what each registry does to a `Custom` group is its own.
   */
  function Reallocate(e: Entry, size: TargetSize): (r: Result<Resized>)
    ensures r.Ok? <==> e.recreate(size).Ok?
    ensures r.Ok? ==> r.value.entry.target == e.recreate(size).value
    ensures r.Ok? ==> r.value.entry.sizeGroup == e.sizeGroup && r.value.retired == e.target
    ensures r.Err? ==> r.message == e.recreate(size).message
  {
    match e.recreate(size)
    case Ok(image) => Ok(Resized(e.(target := image), e.target))
    case Err(m) => Err(m)
  }

  /**
   * `after` is `before` with some entries of `group` resized to `size` by
   * `resize`, and every other entry untouched.
   */
  ghost predicate ResizedOrKept(before: map<string, Entry>, after: map<string, Entry>, group: SizeGroup,
                                size: TargetSize, resize: (Entry, TargetSize) -> Result<Resized>)
  {
    && after.Keys == before.Keys
    && (forall k :: k in before && before[k].sizeGroup != group ==> after[k] == before[k])
    && (forall k :: k in before && before[k].sizeGroup == group ==>
          after[k] == before[k] || (resize(before[k], size).Ok? && after[k] == resize(before[k], size).value.entry))
  }

  /**
   * The outcome of resizing `group` as `ResizeGroup` reports it: `after`
   * is `before` with some entries of the group resized; `r` is `Ok`
   * exactly when every entry of the group could be resized, and then all
   * were; an `Err` carries the message of an entry that could not.
   */
  ghost predicate GroupResized(before: map<string, Entry>, after: map<string, Entry>, group: SizeGroup,
                               size: TargetSize, resize: (Entry, TargetSize) -> Result<Resized>, r: Result<Unit>)
  {
    && ResizedOrKept(before, after, group, size, resize)
    && (r.Ok? <==> forall k :: k in before && before[k].sizeGroup == group ==> resize(before[k], size).Ok?)
    && (r.Ok? ==> AllResized(before, after, group, size, resize))
    && (r.Err? ==> exists k :: k in before && before[k].sizeGroup == group && resize(before[k], size) == Err(r.message))
  }

  /** Every entry of `group` in `before` was resized to `size` by `resize`. */
  ghost predicate AllResized(before: map<string, Entry>, after: map<string, Entry>, group: SizeGroup,
                             size: TargetSize, resize: (Entry, TargetSize) -> Result<Resized>)
  {
    forall k :: k in before && before[k].sizeGroup == group ==>
      k in after && resize(before[k], size).Ok? && after[k] == resize(before[k], size).value.entry
  }

  /**
   * The loop `for entry in targets.values_mut() { if entry.size_group ==
   * group { resize_target(..)? } }`, in the map's unspecified order, with
   * the registry's own `resize` for `resize_target`. It stops at the first
   * failing entry: entries already resized stay resized, the others keep
   * their image. `order` is the order the entries were resized in, and
   * `retired` the images that went to the deletion queue, in that order.
   */
  method ResizeGroup(targets: map<string, Entry>, group: SizeGroup, size: TargetSize,
                     resize: (Entry, TargetSize) -> Result<Resized>)
    returns (r: Result<Unit>, resized: map<string, Entry>, retired: seq<PairedImageView>, ghost order: seq<string>)
    ensures ResizedOrKept(targets, resized, group, size, resize)
    ensures r.Ok? <==> forall k :: k in targets && targets[k].sizeGroup == group ==> resize(targets[k], size).Ok?
    ensures r.Ok? ==> AllResized(targets, resized, group, size, resize)
    ensures r.Err? ==> exists k :: k in targets && targets[k].sizeGroup == group && resize(targets[k], size) == Err(r.message)
    // The deletion queue receives each resized entry's old image, once.
    ensures |retired| == |order|
    ensures forall i, j :: 0 <= i < j < |order| ==> order[i] != order[j]
    ensures forall i :: 0 <= i < |order| ==>
              && order[i] in targets && targets[order[i]].sizeGroup == group
              && resize(targets[order[i]], size).Ok?
              && retired[i] == resize(targets[order[i]], size).value.retired
    ensures r.Ok? ==> forall k :: k in targets && targets[k].sizeGroup == group ==> k in order
  {
    var todo := targets.Keys;
    resized, retired, order := targets, [], [];
    r := Ok(Unit);
    while todo != {}
      invariant todo <= targets.Keys && resized.Keys == targets.Keys
      invariant forall k :: k in todo ==> resized[k] == targets[k] && k !in order
      invariant forall k :: k in targets && targets[k].sizeGroup != group ==> resized[k] == targets[k]
      invariant forall k :: k in targets && k !in todo && targets[k].sizeGroup == group ==>
                  resize(targets[k], size).Ok? && resized[k] == resize(targets[k], size).value.entry && k in order
      invariant |retired| == |order|
      invariant forall i, j :: 0 <= i < j < |order| ==> order[i] != order[j]
      invariant forall i :: 0 <= i < |order| ==>
                  && order[i] in targets && targets[order[i]].sizeGroup == group
                  && resize(targets[order[i]], size).Ok?
                  && retired[i] == resize(targets[order[i]], size).value.retired
      decreases todo
    {
      var name :| name in todo;
      var entry := targets[name];
      if entry.sizeGroup == group {
        var outcome := resize(entry, size);
        if outcome.Err? {
          r := Err(outcome.message);
          return;
        }
        resized := resized[name := outcome.value.entry];
        retired := retired + [outcome.value.retired];
        order := order + [name];
      }
      todo := todo - {name};
    }
  }
}

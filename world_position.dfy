/**
 * `WorldPositionReconstruct`: turning the cursor's screen position into a
 * world position by a GPU readback. Each frame dispatches a 1x1x1 compute
 * job that writes one entry of a two-entry buffer, and reads back the
 * entry written two frames earlier, when the GPU has finished with it. A
 * ring of two `ReadbackData` flags records which entries hold data from a
 * real dispatch.
 *
 * The abstract protocol is `Slots`/`Step`: which screen position each
 * entry was last requested for. The class keeps the flags and is proved to
 * follow `Step`; `ReadsRequestOfTwoCallsBefore` states what that means over
 * a whole run of frames.
 */
module WorldPosition {
  import opened Wrappers
  import opened Geometry
  import opened RingIndex
  import UtilRingBuffer
  import opened Phobos

  /** `ReadbackData`: whether the entry was written by a dispatch. */
  datatype ReadbackData = ReadbackData(valid: bool)

  /** One entry of the mapped storage buffer, a `Vec4` of which `xyz` is used. */
  datatype Vec4 = Vec4(x: Float, y: Float, z: Float, w: Float)

  function Xyz(p: Vec4): FloatVec3 {
    FloatVec3(p.x, p.y, p.z)
  }

  // ---------------------------------------------------------------
  // The protocol on values
  // ---------------------------------------------------------------

  /**
   * The ring's cursor, and for each entry the screen position of the
   * dispatch that last wrote it (`None` when the last frame on that entry
   * dispatched nothing, or no frame has used it yet).
   */
  datatype Slots = Slots(current: nat, requests: seq<Option<Vec2>>)

  predicate WellFormed(s: Slots) {
    |s.requests| == FRAMES_IN_FLIGHT && s.current < FRAMES_IN_FLIGHT
  }

  /** Both entries start invalid, the cursor on entry 0. */
  function Initial(): (s: Slots)
    ensures WellFormed(s)
    ensures forall i :: 0 <= i < FRAMES_IN_FLIGHT ==> s.requests[i].None?
  {
    Slots(0, [None, None])
  }

  /** The dispatch of one frame: the cursor's screen position and the entry it writes. */
  datatype Dispatch = Dispatch(screen: Vec2, entry: nat)

  /** A read of one frame: the entry read, and the screen position that entry was requested for. */
  datatype Readback = Readback(entry: nat, requested: Vec2)

  /** One frame of the protocol: the state after it, what it read and what it dispatched. */
  datatype Frame = Frame(after: Slots, readback: Option<Readback>, dispatch: Option<Dispatch>)

  /**
   * One `render` call: advance the cursor, read the entry under it if it
   * is valid, then dispatch into that same entry when the cursor is over
   * the world view.
   */
  function Step(s: Slots, screen: Option<Vec2>): (f: Frame)
    requires WellFormed(s)
    ensures WellFormed(f.after)
    ensures f.after.current == Succ(s.current, FRAMES_IN_FLIGHT)
    ensures f.readback.Some? <==> s.requests[f.after.current].Some?
    ensures f.readback.Some? ==> f.readback.value == Readback(f.after.current, s.requests[f.after.current].value)
    ensures f.dispatch.Some? <==> screen.Some?
    ensures f.dispatch.Some? ==> f.dispatch.value == Dispatch(screen.value, f.after.current)
    ensures f.after.requests[f.after.current] == screen
    ensures forall i :: 0 <= i < FRAMES_IN_FLIGHT && i != f.after.current ==> f.after.requests[i] == s.requests[i]
  {
    var c := Succ(s.current, FRAMES_IN_FLIGHT);
    var read := if s.requests[c].Some? then Some(Readback(c, s.requests[c].value)) else None;
    var dispatch := if screen.Some? then Some(Dispatch(screen.value, c)) else None;
    Frame(Slots(c, s.requests[c := screen]), read, dispatch)
  }

  /** The state after the frames whose cursor positions are `screens`. */
  function After(screens: seq<Option<Vec2>>): (s: Slots)
    ensures WellFormed(s)
  {
    if |screens| == 0 then Initial()
    else Step(After(screens[..|screens| - 1]), screens[|screens| - 1]).after
  }

  /** Frame `t` of a run, counting from 0. */
  function FrameAt(screens: seq<Option<Vec2>>, t: nat): Frame
    requires t < |screens|
  {
    Step(After(screens[..t]), screens[t])
  }

  /** The entry frame `t` uses: 1, 0, 1, 0, ... */
  function EntryOf(t: nat): (e: nat)
    ensures e < FRAMES_IN_FLIGHT
  {
    if t % 2 == 0 then 1 else 0
  }

  /**
   * After `k` frames the cursor is on the entry of frame `k - 1`, that
   * entry holds frame `k - 1`'s request, and the other one frame
   * `k - 2`'s; entries no frame has used yet are invalid.
   */
  lemma {:induction false} AfterShape(screens: seq<Option<Vec2>>)
    ensures var s := After(screens);
            var k := |screens|;
            && s.current == (if k == 0 then 0 else EntryOf(k - 1))
            && s.requests[s.current] == (if k == 0 then None else screens[k - 1])
            && s.requests[1 - s.current] == (if k < 2 then None else screens[k - 2])
  {
    var k := |screens|;
    if k > 0 {
      var prefix := screens[..k - 1];
      AfterShape(prefix);
      if k >= 2 {
        assert prefix[k - 2] == screens[k - 2];
      }
    }
  }

  /**
   * The readback protocol: frame `t` reads back exactly when frame `t - 2`
   * dispatched, it reads the entry that dispatch wrote, and what it gets
   * was requested for frame `t - 2`'s cursor position. The first two
   * frames read nothing.
   */
  lemma ReadsRequestOfTwoCallsBefore(screens: seq<Option<Vec2>>, t: nat)
    requires t < |screens|
    ensures FrameAt(screens, t).readback.Some? <==> t >= 2 && screens[t - 2].Some?
    ensures FrameAt(screens, t).readback.Some? ==>
              && FrameAt(screens, t - 2).dispatch.Some?
              && FrameAt(screens, t).readback.value.entry == FrameAt(screens, t - 2).dispatch.value.entry
              && FrameAt(screens, t).readback.value.requested == screens[t - 2].value
  {
    AfterShape(screens[..t]);
    if t >= 2 {
      AfterShape(screens[..t - 2]);
      assert screens[..t][t - 2] == screens[t - 2];
    }
  }

  /** Every frame uses the entry its predecessor did not. */
  lemma EntriesAlternate(screens: seq<Option<Vec2>>, t: nat)
    requires t < |screens|
    ensures FrameAt(screens, t).after.current == EntryOf(t)
  {
    AfterShape(screens[..t]);
  }

  // ---------------------------------------------------------------
  // The pass object
  // ---------------------------------------------------------------

  /** `WorldMousePosition`, the shared cursor state behind a write lock. */
  class WorldMousePosition {
    var screenSpace: Option<Vec2>
    var worldSpace: Option<FloatVec3>
    var terrainUv: Option<FloatVec2>

    constructor (screenSpace: Option<Vec2>, worldSpace: Option<FloatVec3>, terrainUv: Option<FloatVec2>)
      ensures this.screenSpace == screenSpace && this.worldSpace == worldSpace && this.terrainUv == terrainUv
    {
      this.screenSpace := screenSpace;
      this.worldSpace := worldSpace;
      this.terrainUv := terrainUv;
    }
  }

  /** The pass `render` adds to the frame graph: it samples the depth image and may dispatch. */
  datatype ReconstructPass = ReconstructPass(name: string, sampledDepth: string, dispatch: Option<Dispatch>)

  class WorldPositionReconstruct {
    const views: UtilRingBuffer.RingBuffer<ReadbackData>
    /** What each entry was last requested for: the abstract state of the protocol. */
    ghost var slots: Slots

    ghost predicate Valid()
      reads this, views, views.buffer
    {
      && views.Valid()
      && views.buffer.Length == FRAMES_IN_FLIGHT
      && WellFormed(slots)
      && slots.current == views.current
      && forall i :: 0 <= i < FRAMES_IN_FLIGHT ==> views.buffer[i].valid == slots.requests[i].Some?
    }

    /** `new`: a ring of two invalid entries, the cursor on entry 0. */
    constructor ()
      ensures Valid() && fresh(views) && fresh(views.buffer)
      ensures slots == Initial()
      ensures views.current == 0
      ensures forall i :: 0 <= i < FRAMES_IN_FLIGHT ==> !views.buffer[i].valid
    {
      views := new UtilRingBuffer.RingBuffer.New([ReadbackData(false), ReadbackData(false)]);
      slots := Initial();
    }

    /**
     * `render`. `mapped` is the host view of the readback buffer (or the
     * error mapping it gave), `depth` the depth image's latest version in
     * the frame graph (or its error), and `uvAt` the terrain's
     * `uv_at`. The ring advances first; if the new entry is valid, its
     * buffer entry is copied into the cursor's world position and terrain
     * UV; then the entry becomes valid exactly when the cursor is over the
     * world view, and only then does the pass dispatch, into that entry.
     */
    method Render(mouse: WorldMousePosition, mapped: Result<seq<Vec4>>, depth: Result<string>,
                  uvAt: FloatVec3 -> FloatVec2)
      returns (r: Result<ReconstructPass>)
      requires Valid()
      requires mapped.Ok? ==> |mapped.value| == FRAMES_IN_FLIGHT
      modifies this, views, views.buffer, mouse
      ensures Valid()
      ensures views.current == Succ(old(views.current), FRAMES_IN_FLIGHT)
      ensures mouse.screenSpace == old(mouse.screenSpace)
      // The read: only from an entry some earlier dispatch wrote.
      ensures var read := old(views.buffer[..])[views.current].valid && mapped.Ok?;
              if read then mouse.worldSpace == Some(Xyz(mapped.value[views.current]))
                        && mouse.terrainUv == Some(uvAt(Xyz(mapped.value[views.current])))
              else mouse.worldSpace == old(mouse.worldSpace) && mouse.terrainUv == old(mouse.terrainUv)
      ensures old(views.buffer[..])[views.current].valid && mapped.Err? ==> r == Err(mapped.message)
      // The dispatch: into the entry just read, exactly when the cursor is over the view.
      ensures r.Ok? <==> depth.Ok? && (mapped.Ok? || !old(views.buffer[..])[views.current].valid)
      ensures r.Ok? ==> && r.value.name == "world_pos_reconstruct"
                        && r.value.sampledDepth == depth.value
                        && r.value.dispatch == Step(old(slots), mouse.screenSpace).dispatch
      ensures r.Ok? ==> slots == Step(old(slots), mouse.screenSpace).after
      ensures r.Ok? ==> views.buffer[views.current].valid == mouse.screenSpace.Some?
      ensures r.Err? ==> slots == old(slots).(current := views.current)
      ensures views.buffer[1 - views.current] == old(views.buffer[..])[1 - views.current]
    {
      views.Next();
      slots := slots.(current := views.current);
      var curIdx := views.current;
      var data := views.Current();
      if data.valid {
        if mapped.Err? {
          return Err(mapped.message);
        }
        var pos := mapped.value[curIdx];
        mouse.worldSpace := Some(Xyz(pos));
        mouse.terrainUv := Some(uvAt(Xyz(pos)));
      }
      if depth.Err? {
        return Err(depth.message);
      }
      var dispatch: Option<Dispatch>;
      if mouse.screenSpace.Some? {
        views.SetCurrent(ReadbackData(true));
        dispatch := Some(Dispatch(mouse.screenSpace.value, curIdx));
      } else {
        views.SetCurrent(ReadbackData(false));
        dispatch := None;
      }
      slots := slots.(requests := slots.requests[curIdx := mouse.screenSpace]);
      r := Ok(ReconstructPass("world_pos_reconstruct", depth.value, dispatch));
    }
  }
}

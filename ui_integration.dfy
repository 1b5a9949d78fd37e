/**
 * The texture lifetimes of `UIIntegration`: every texture registered with
 * the UI gets eight frames to live, and each frame counts every lifetime
 * down, unregistering the textures whose lifetime runs out. The egui
 * integration itself is foreign: registering a texture is given as the
 * id it returned, and unregistering is recorded in a log.
 */
module UiIntegration {
  /** `TextureId`. */
  datatype TextureId = TextureId(id: nat)

  /** `USize`. */
  datatype USize = USize(width: nat, height: nat)

  /** `gui::util::image::Image`: a registered texture and its size. */
  datatype Image = Image(id: TextureId, size: USize)

  /** The frames a newly registered texture lives. */
  const TTL: nat := 8

  /** The lifetimes after one frame: each one less, and the ones that reach 0 dropped. */
  function Decrement(ttl: map<TextureId, nat>): (r: map<TextureId, nat>)
    ensures forall id :: id in r <==> id in ttl && ttl[id] > 1
    ensures forall id :: id in r ==> r[id] == ttl[id] - 1
  {
    map id | id in ttl && ttl[id] > 1 :: ttl[id] - 1
  }

  /** The textures whose lifetime runs out in the next frame. */
  function Expiring(ttl: map<TextureId, nat>): (s: set<TextureId>)
    ensures forall id :: id in s <==> id in ttl && ttl[id] == 1
  {
    set id | id in ttl && ttl[id] == 1
  }

  /** The lifetimes after `k` frames with no registration in between. */
  function After(ttl: map<TextureId, nat>, k: nat): map<TextureId, nat>
  {
    if k == 0 then ttl else Decrement(After(ttl, k - 1))
  }

  /**
   * A texture with `t` frames left, not registered again, is still there
   * with `t - k` left after `k < t` frames, and gone after `t`.
   */
  lemma {:induction false} Countdown(ttl: map<TextureId, nat>, id: TextureId, k: nat)
    requires id in ttl && ttl[id] >= 1
    ensures k < ttl[id] ==> id in After(ttl, k) && After(ttl, k)[id] == ttl[id] - k
    ensures k >= ttl[id] ==> id !in After(ttl, k)
  {
    if k > 0 {
      Countdown(ttl, id, k - 1);
      if k - 1 >= ttl[id] {
        GoneStaysGone(After(ttl, k - 1), id);
      }
    }
  }

  /** A dropped texture does not come back without being registered. */
  lemma GoneStaysGone(ttl: map<TextureId, nat>, id: TextureId)
    requires id !in ttl
    ensures id !in Decrement(ttl)
  {
  }

  /**
   * A texture registered once and never again is unregistered by the
   * eighth frame after, and not before.
   */
  lemma UnregisteredOnEighthFrame(ttl: map<TextureId, nat>, id: TextureId)
    requires id in ttl && ttl[id] == TTL
    ensures forall k :: 0 <= k < TTL - 1 ==> id !in Expiring(After(ttl, k))
    ensures id in Expiring(After(ttl, TTL - 1))
    ensures id !in After(ttl, TTL)
  {
    forall k | 0 <= k < TTL - 1
      ensures id !in Expiring(After(ttl, k))
    {
      Countdown(ttl, id, k);
    }
    Countdown(ttl, id, TTL - 1);
    Countdown(ttl, id, TTL);
  }

  class UIIntegration {
    /** `to_unregister`: the frames each registered texture has left. */
    var toUnregister: map<TextureId, nat>
    /** The textures handed to `unregister_user_texture`, in order. */
    var unregistered: seq<TextureId>

    /** No lifetime is ever 0, so counting down never underflows. */
    ghost predicate Valid()
      reads this
    {
      forall id :: id in toUnregister ==> 1 <= toUnregister[id] <= TTL
    }

    /** `new`: nothing to unregister. */
    constructor ()
      ensures Valid() && toUnregister == map[] && unregistered == []
    {
      toUnregister := map[];
      unregistered := [];
    }

    /**
     * `register_texture`: the texture (registered with the integration as
     * `id`) gets a fresh lifetime of eight frames, replacing what was left
     * of an earlier one; the image carries the view's size.
     */
    method RegisterTexture(id: TextureId, width: nat, height: nat) returns (image: Image)
      requires Valid()
      modifies this`toUnregister
      ensures Valid()
      ensures toUnregister == old(toUnregister)[id := TTL]
      ensures image == Image(id, USize(width, height))
    {
      toUnregister := toUnregister[id := TTL];
      image := Image(id, USize(width, height));
    }

    /**
     * `new_frame`: every lifetime goes down by one; each texture whose
     * lifetime reaches 0 is unregistered, once, and dropped from the map.
     * The map's iteration order is unspecified, and so is the order of
     * the unregistrations.
     */
    method NewFrame()
      requires Valid()
      modifies this
      ensures Valid()
      ensures toUnregister == Decrement(old(toUnregister))
      ensures |unregistered| >= |old(unregistered)| && unregistered[..|old(unregistered)|] == old(unregistered)
      ensures forall id :: id in unregistered[|old(unregistered)|..] <==> id in Expiring(old(toUnregister))
      ensures forall i, j :: |old(unregistered)| <= i < j < |unregistered| ==> unregistered[i] != unregistered[j]
    {
      var todo := toUnregister.Keys;
      var counted := toUnregister;
      var dropped: seq<TextureId> := [];
      while todo != {}
        invariant todo <= toUnregister.Keys && counted.Keys == toUnregister.Keys
        invariant toUnregister == old(toUnregister) && unregistered == old(unregistered)
        invariant forall id :: id in todo ==> counted[id] == toUnregister[id]
        invariant forall id :: id in toUnregister && id !in todo ==> counted[id] == toUnregister[id] - 1
        invariant forall id :: id in dropped <==> id in toUnregister && id !in todo && toUnregister[id] == 1
        invariant forall i, j :: 0 <= i < j < |dropped| ==> dropped[i] != dropped[j]
        decreases todo
      {
        var id :| id in todo;
        counted := counted[id := counted[id] - 1];
        if counted[id] == 0 {
          dropped := dropped + [id];
        }
        todo := todo - {id};
      }
      unregistered := unregistered + dropped;
      assert unregistered[|old(unregistered)|..] == dropped;
      toUnregister := map id | id in counted && counted[id] != 0 :: counted[id];
    }
  }
}

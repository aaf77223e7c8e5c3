/** The part of a game object that the spatial index and the object manager see. */
module GameObjects {
  import opened Geometry

  class GameObject {
    const id: nat
    const isTrigger: bool
    const noun: nat                     // the noun type
    var box: BoundingBox
    var dirty: bool                     // moved since the index last looked
    var marked: bool                    // marked for deletion
    var owner: GameObject?              // a trigger's owner
    var states: map<GameObject, nat>    // a trigger's known objects

    constructor (id: nat, noun: nat, isTrigger: bool, box: BoundingBox)
      ensures this.id == id && this.noun == noun && this.isTrigger == isTrigger && this.box == box
      ensures !dirty && !marked && owner == null && states == map[]
    {
      this.id, this.noun, this.isTrigger, this.box := id, noun, isTrigger, box;
      dirty, marked, owner, states := false, false, null, map[];
    }

    /** `SetPosition`: only a changed position makes the object dirty. */
    method SetPosition(position: Vec3)
      modifies this`box, this`dirty
      ensures box == old(box).(center := position)
      ensures dirty == (old(dirty) || box != old(box))
    {
      var changed := position != box.center;
      box := box.(center := position);
      if changed {
        dirty := true;
      }
    }

    /** `SetExtent`: extents are kept non-negative. A changed box makes the object dirty, except where extents that are
        negative are set again: they turn around unnoticed. */
    method SetExtent(extent: Vec3)
      modifies this`box, this`dirty
      ensures box == BoundingBox(old(box).center, Magnitude(extent)) && box.Proper()
      ensures dirty == (old(dirty) || extent != old(box).extent)
      ensures (box != old(box) ==> dirty) <==> old(dirty) || old(box).Proper() || extent != old(box).extent
    {
      var changed := extent != box.extent;
      box := box.(extent := Magnitude(extent));
      if changed {
        dirty := true;
      }
    }

    /** `TriggerVolume::AddObject`: a new object starts in state 0, a known one keeps its state. */
    method AddObject(o: GameObject)
      modifies this`states
      ensures states == if o == owner || o in old(states) then old(states) else old(states)[o := 0]
    {
      if o == owner {
        return;
      }
      if o !in states {
        states := states[o := 0];
      }
    }
  }
}

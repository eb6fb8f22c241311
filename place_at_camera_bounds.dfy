/** PlaceAtCameraBounds: moves an object to a camera-bounds location while
    keeping the coordinates of its locked axis. The desired position the
    bounds placement computes from the camera is an input. */
module Placement {
  import opened Common

  /** An axis lock keeps x when it is X or XY. */
  predicate KeepsX(a: Axis) {
    a == Axis.X || a == Axis.XY
  }

  /** An axis lock keeps y when it is Y or XY. */
  predicate KeepsY(a: Axis) {
    a == Axis.Y || a == Axis.XY
  }

  /** Where Setup leaves the object, given the world position its local
      origin has (`reset`) and the desired position: every locked coordinate
      keeps the reset value and every free one takes the desired value. A
      two-dimensional desired position puts z at 0; locking both axes stops
      at the reset position. */
  function PlacedPosition(lock: Axis, reset: Vec3, desired: Vec2): (r: Vec3)
    ensures r.x == (if KeepsX(lock) then reset.x else desired.x)
    ensures r.y == (if KeepsY(lock) then reset.y else desired.y)
    ensures r.z == (if lock == Axis.XY then reset.z else 0.0)
  {
    match lock
    case XY => reset
    case X => Vec3(reset.x, desired.y, 0.0)
    case Y => Vec3(desired.x, reset.y, 0.0)
    case None => ToVec3(desired)
  }

  class PlaceAtCameraBounds {
    /** Whether a SpriteRenderer was found. */
    const hasSpriteRenderer: bool
    /** World position of the parent, i.e. where local position zero lies. */
    const parentPosition: Vec3
    var boundsLocation: BoundsLocation
    var lockAxis: Axis
    /** World position of the object. */
    var position: Vec3

    constructor (hasSpriteRenderer: bool, parentPosition: Vec3, position: Vec3)
      ensures this.hasSpriteRenderer == hasSpriteRenderer && this.parentPosition == parentPosition
      ensures this.position == position
      ensures boundsLocation == BoundsLocation.Left && lockAxis == Axis.None
    {
      this.hasSpriteRenderer := hasSpriteRenderer;
      this.parentPosition := parentPosition;
      this.position := position;
      boundsLocation := BoundsLocation.Left;
      lockAxis := Axis.None;
    }

    /** Placement stops early exactly when the lock keeps both coordinates. */
    predicate BothAxisLocked(): (r: bool)
      reads this
      ensures r <==> KeepsX(lockAxis) && KeepsY(lockAxis)
    {
      lockAxis == Axis.XY
    }

    /** Setup: without a sprite renderer nothing changes (an error is
        logged); otherwise the location and lock are stored, the local
        position is reset, and the free coordinates move to `desired`. */
    method Setup(location: BoundsLocation, lockedAxis: Axis, desired: Vec2)
      modifies this
      ensures !hasSpriteRenderer ==>
        boundsLocation == old(boundsLocation) && lockAxis == old(lockAxis) && position == old(position)
      ensures hasSpriteRenderer ==>
        boundsLocation == location && lockAxis == lockedAxis &&
        position == PlacedPosition(lockedAxis, parentPosition, desired)
    {
      if !hasSpriteRenderer {
        return;
      }
      boundsLocation := location;
      lockAxis := lockedAxis;
      position := parentPosition;
      if BothAxisLocked() {
        return;
      }
      var desiredPosition := desired;
      if lockAxis == Axis.X {
        desiredPosition := desiredPosition.(x := position.x);
      } else if lockAxis == Axis.Y {
        desiredPosition := desiredPosition.(y := position.y);
      }
      position := ToVec3(desiredPosition);
    }
  }
}

/**
 * The forward obstacle sensor of the offensive states (`DetectObstacle`, the same
 * code in AttackState and StrongAttackState): a RaycastAll of length 5 along the
 * tank's forward direction, whose hits the engine supplies.
 */
module Sensor {
  import opened Types

  /** How far StartDodging moves the tank. */
  const DodgeDistance: real := 20.0

  /**
   * One hit of the ray: the object its collider belongs to (None when the hit has
   * no collider) and whether that object carries a TankSM, i.e. is an ally tank.
   */
  datatype Hit = Hit(collider: Option<ObjectId>, isTank: bool)

  /** A hit blocks the path when it has a collider that is neither the target nor the tank. */
  predicate Blocks(h: Hit, targetObj: ObjectId, selfObj: ObjectId) {
    h.collider.Some? && h.collider.value != targetObj && h.collider.value != selfObj
  }

  predicate Blocked(hits: seq<Hit>, targetObj: ObjectId, selfObj: ObjectId) {
    exists i :: 0 <= i < |hits| && Blocks(hits[i], targetObj, selfObj)
  }

  /**
   * The early-return search over the hits. An ally tank and any other obstacle
   * give the same answer: `isTank` plays no part in the result.
   */
  method DetectObstacle(hits: seq<Hit>, targetObj: ObjectId, selfObj: ObjectId) returns (blocked: bool)
    ensures blocked <==> Blocked(hits, targetObj, selfObj)
  {
    var i := 0;
    while i < |hits|
      invariant 0 <= i <= |hits|
      invariant forall j :: 0 <= j < i ==> !Blocks(hits[j], targetObj, selfObj)
    {
      var hit := hits[i];
      if hit.collider.Some? {
        if hit.collider.value != targetObj && hit.collider.value != selfObj {
          if hit.isTank {
            return true;
          }
          return true;
        }
      }
      i := i + 1;
    }
    return false;
  }

  /** StartDodging: the destination DodgeDistance times the drawn direction away from the tank. */
  function DodgeDestination(position: Vec3, direction: Vec3): Vec3 {
    Add(position, Scale(direction, DodgeDistance))
  }

  /**
   * The dodge destination is offset from the tank by DodgeDistance times the
   * direction, so it lies DodgeDistance times the direction's length away; for a
   * horizontal unit direction, as the normalised draw with y = 0 is, it is 20
   * units away at the tank's own height.
   */
  lemma DodgeDistanceReached(position: Vec3, direction: Vec3)
    ensures Sub(DodgeDestination(position, direction), position) == Scale(direction, DodgeDistance)
    ensures Norm2(Sub(DodgeDestination(position, direction), position))
              == DodgeDistance * DodgeDistance * Norm2(direction)
    ensures direction.y == 0.0 && Norm2(direction) == 1.0 ==>
              var r := DodgeDestination(position, direction);
              r.y == position.y && FlatDist2(r, position) == DodgeDistance * DodgeDistance
  {
    var r := DodgeDestination(position, direction);
    var d := Sub(r, position);
    assert d == Scale(direction, DodgeDistance);
    ScaledNorm2(direction, DodgeDistance);
    assert direction.y == 0.0 ==> d.y == 0.0 && FlatDist2(r, position) == Norm2(d);
  }
}

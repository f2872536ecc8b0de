/**
 * FleeState: the tank turns 90 degrees to one side of the direction away from its
 * target, then drives 50 units ahead, re-targeting whenever an obstacle appears
 * within 10 units, and after six seconds of fleeing asks for StrongAttack.
 */
module Flee {
  import opened Types
  import opened Runtime

  /** Distance driven ahead on each flee destination. */
  const FleeDistance: real := 50.0
  /** Seconds of fleeing before the state asks for StrongAttack. */
  const FleeDuration: real := 6.0
  /** The turn chosen on entry and on every obstacle. */
  const RotationAngleOnObstacle: real := 90.0

  /** `Random.value > 0.5 ? 90 : -90`: a quarter turn to the left or to the right. */
  function TurnAngle(coin: real): (angle: real)
    ensures angle == RotationAngleOnObstacle || angle == -RotationAngleOnObstacle
    ensures angle == RotationAngleOnObstacle <==> coin > 0.5
  {
    if coin > 0.5 then RotationAngleOnObstacle else -RotationAngleOnObstacle
  }

  /**
   * The rotation the tank turns to, kept symbolically: `angle` degrees about the
   * vertical axis composed with either the look rotation along the (unnormalised)
   * direction away from the target, or the tank's heading at the obstacle.
   */
  datatype Rotation =
    | Unset
    | AwayFromTarget(angle: real, away: Vec3)
    | FromHeading(angle: real, heading: Quat)

  /** Where the tank drives: FleeDistance times its forward direction ahead. */
  function FleeTarget(position: Vec3, forward: Vec3): Vec3 {
    Add(position, Scale(forward, FleeDistance))
  }

  /**
   * The flee destination is offset from the tank by FleeDistance times its
   * forward direction, so it lies FleeDistance times that direction's length
   * away; for a unit forward direction, as a transform's is, exactly 50 units.
   */
  lemma FleeDistanceReached(position: Vec3, forward: Vec3)
    ensures Sub(FleeTarget(position, forward), position) == Scale(forward, FleeDistance)
    ensures Norm2(Sub(FleeTarget(position, forward), position)) == FleeDistance * FleeDistance * Norm2(forward)
    ensures Norm2(forward) == 1.0 ==> Norm2(Sub(FleeTarget(position, forward), position)) == 2500.0
  {
    assert Sub(FleeTarget(position, forward), position) == Scale(forward, FleeDistance);
    ScaledNorm2(forward, FleeDistance);
  }

  class FleeState {
    const self: TankId
    const engine: Engine

    var hasRotated: bool
    var isFleeing: bool
    var fleeTimer: real
    var targetRotation: Rotation

    /** The phases of a flee: fleeing only after the turn, and the clock runs only while fleeing. */
    ghost predicate Valid()
      reads this
    {
      && (isFleeing ==> hasRotated)
      && (!isFleeing ==> fleeTimer == 0.0)
      && fleeTimer >= 0.0
    }

    constructor (self: TankId, engine: Engine)
      ensures this.self == self && this.engine == engine
      ensures Valid()
      ensures !hasRotated && !isFleeing && fleeTimer == 0.0 && targetRotation == Unset
    {
      this.self := self;
      this.engine := engine;
      hasRotated := false;
      isFleeing := false;
      fleeTimer := 0.0;
      targetRotation := Unset;
    }

    /**
     * Stop distance zero; the turn target is TurnAngle(coin) degrees from the
     * direction away from the target; every phase flag and the clock are reset.
     */
    method Enter(position: Vec3, targetPos: Vec3, coin: real)
      requires engine.Valid()
      requires 0.0 <= coin <= 1.0
      modifies this, engine
      ensures Valid() && engine.Valid()
      ensures engine.log == old(engine.log) + [StopDistanceToZero(self)]
      ensures engine.running == old(engine.running)
      ensures !hasRotated && !isFleeing && fleeTimer == 0.0
      ensures targetRotation == AwayFromTarget(TurnAngle(coin), Sub(position, targetPos))
      ensures targetRotation.angle == 90.0 || targetRotation.angle == -90.0
    {
      engine.Issue(StopDistanceToZero(self));
      var away := Sub(position, targetPos);
      targetRotation := AwayFromTarget(TurnAngle(coin), away);
      hasRotated := false;
      isFleeing := false;
      fleeTimer := 0.0;
    }

    /**
     * One frame. Before the turn is complete the frame only turns (`rotationDone`
     * is whether the tank ends the frame within 0.1 degrees of the turn target).
     * Afterwards: the first such frame issues the flee destination, every frame
     * with an obstacle ahead picks a new quarter turn from the current heading and
     * reissues a destination, the clock advances by `deltaTime`, and StrongAttack
     * is requested once it reaches FleeDuration. Patrolling is never requested.
     */
    method Update(rotationDone: bool, position: Vec3, forward: Vec3, rotation: Quat,
                  obstacleAhead: bool, coin: real, deltaTime: real)
      returns (next: Option<StateKind>)
      requires Valid() && engine.Valid()
      requires 0.0 <= coin <= 1.0 && deltaTime >= 0.0
      modifies this, engine
      ensures Valid() && engine.Valid()
      ensures engine.running == old(engine.running)
      ensures next.None? || next == Some(InStrongAttack)
      ensures old(hasRotated) ==> hasRotated
      ensures old(isFleeing) ==> isFleeing
      ensures fleeTimer >= old(fleeTimer)
      ensures fleeTimer != old(fleeTimer) ==> isFleeing
      ensures !old(hasRotated) ==>
                && next.None? && hasRotated == rotationDone && !isFleeing
                && fleeTimer == old(fleeTimer) && targetRotation == old(targetRotation)
                && engine.log == old(engine.log)
      ensures old(hasRotated) ==>
                && hasRotated && isFleeing
                && fleeTimer == old(fleeTimer) + deltaTime
                && (next == Some(InStrongAttack) <==> fleeTimer >= FleeDuration)
                && engine.log == old(engine.log)
                     + (if !old(isFleeing) then [SetDestination(self, FleeTarget(position, forward))] else [])
                     + (if obstacleAhead then [SetDestination(self, FleeTarget(position, forward))] else [])
                && targetRotation == (if obstacleAhead then FromHeading(TurnAngle(coin), rotation)
                                      else old(targetRotation))
    {
      if !hasRotated {
        // RotateTank: turning itself is engine geometry.
        if rotationDone {
          hasRotated := true;
        }
        return None;
      }
      if hasRotated && !isFleeing {
        engine.Issue(SetDestination(self, FleeTarget(position, forward)));
        isFleeing := true;
      }
      CheckForObstacles(position, forward, rotation, obstacleAhead, coin);
      next := None;
      if isFleeing {
        fleeTimer := fleeTimer + deltaTime;
        if fleeTimer >= FleeDuration {
          next := Some(InStrongAttack);
        }
      }
    }

    /**
     * A hit on the obstacle layer: a new quarter turn from the current heading and
     * a new destination 50 units ahead. No hit changes nothing.
     */
    method CheckForObstacles(position: Vec3, forward: Vec3, rotation: Quat, obstacleAhead: bool, coin: real)
      requires engine.Valid()
      requires 0.0 <= coin <= 1.0
      modifies this`targetRotation, engine
      ensures engine.Valid() && engine.running == old(engine.running)
      ensures obstacleAhead ==>
                && targetRotation == FromHeading(TurnAngle(coin), rotation)
                && engine.log == old(engine.log) + [SetDestination(self, FleeTarget(position, forward))]
      ensures !obstacleAhead ==> targetRotation == old(targetRotation) && engine.log == old(engine.log)
    {
      if obstacleAhead {
        targetRotation := FromHeading(TurnAngle(coin), rotation);
        engine.Issue(SetDestination(self, FleeTarget(position, forward)));
      }
    }
  }
}

/**
 * PatrollingState: the tank picks one of three vertical strips of the map at
 * random, wanders to random points of its strip (or towards the target while one
 * exists) from a coroutine, follows a target it sees and asks for Attack once the
 * target is within TargetDistance.
 */
module Patrolling {
  import opened Types
  import opened Runtime

  const MapMinX: real := -50.0
  const MapMaxX: real := 50.0
  const MapMinZ: real := -50.0
  const MapMaxZ: real := 50.0

  /** The x extent of one strip. */
  datatype Strip = Strip(minX: real, maxX: real)

  /** Width of a strip: a third of the map's x extent. */
  const SectionWidth: real := (MapMaxX - MapMinX) / 3.0

  /**
   * The switch of AssignRandomSection on `Random.Range(0, 3)`: strip k starts k
   * widths right of the map's left edge and ends one width later, the last one
   * exactly at the right edge.
   */
  function SectionBounds(k: nat): (b: Strip)
    requires k < 3
    ensures b.minX == -50.0 + k as real * (100.0 / 3.0)
    ensures b.maxX == -50.0 + (k + 1) as real * (100.0 / 3.0)
    ensures b.minX < b.maxX
    ensures k == 2 ==> b.maxX == MapMaxX
  {
    if k == 0 then Strip(MapMinX, MapMinX + SectionWidth)
    else if k == 1 then Strip(MapMinX + SectionWidth, MapMinX + SectionWidth * 2.0)
    else Strip(MapMinX + SectionWidth * 2.0, MapMaxX)
  }

  /**
   * The three strips tile the map's x extent: they start at its left edge, end at
   * its right edge, each begins where the previous one ends, so every x of the
   * map lies in one of them and two different strips share at most an edge.
   */
  lemma SectionsTile(x: real)
    requires MapMinX <= x <= MapMaxX
    ensures SectionBounds(0).minX == MapMinX && SectionBounds(2).maxX == MapMaxX
    ensures SectionBounds(0).maxX == SectionBounds(1).minX
    ensures SectionBounds(1).maxX == SectionBounds(2).minX
    ensures exists k: nat :: k < 3 && SectionBounds(k).minX <= x <= SectionBounds(k).maxX
    ensures forall j: nat, k: nat :: j < k < 3 ==> SectionBounds(j).maxX <= SectionBounds(k).minX
  {
    var b0, b1, b2 := SectionBounds(0), SectionBounds(1), SectionBounds(2);
    if x <= b0.maxX {
      assert b0.minX <= x <= b0.maxX;
    } else if x <= b1.maxX {
      assert b1.minX <= x <= b1.maxX;
    } else {
      assert b2.minX <= x <= b2.maxX;
    }
    forall j: nat, k: nat | j < k < 3 ensures SectionBounds(j).maxX <= SectionBounds(k).minX {
      assert (k - j - 1) as real * (100.0 / 3.0) >= 0.0;
    }
  }

  /** FollowPlayer heads for the target only when it is farther than half the stop distance. */
  predicate Follows(distance: real, stopDistance: real) {
    distance > stopDistance / 2.0
  }

  /** The destination one patrol step picks without a target: y = 0 inside the strip. */
  function PatrolPoint(minX: real, maxX: real, minZ: real, maxZ: real, ux: real, uz: real): (p: Vec3)
    requires 0.0 <= ux <= 1.0 && 0.0 <= uz <= 1.0
    ensures p.y == 0.0
    ensures minX <= maxX ==> minX <= p.x <= maxX
    ensures minZ <= maxZ ==> minZ <= p.z <= maxZ
  {
    Vec3(Draw(minX, maxX, ux), 0.0, Draw(minZ, maxZ, uz))
  }

  class PatrollingState {
    const self: TankId
    const engine: Engine

    var destination: Vec3
    var patrolMinX: real
    var patrolMaxX: real
    var patrolMinZ: real
    var patrolMaxZ: real
    var patrolCoroutine: Option<Handle>

    /** The patrol area after an Enter: one of the three strips, over the map's whole z extent. */
    ghost predicate InSection()
      reads this
    {
      && (exists k: nat :: k < 3 && SectionBounds(k) == Strip(patrolMinX, patrolMaxX))
      && patrolMinZ == MapMinZ && patrolMaxZ == MapMaxZ
    }

    constructor (self: TankId, engine: Engine)
      ensures this.self == self && this.engine == engine
      ensures patrolCoroutine.None?
      ensures destination == Vec3(0.0, 0.0, 0.0)
      ensures patrolMinX == 0.0 && patrolMaxX == 0.0 && patrolMinZ == 0.0 && patrolMaxZ == 0.0
    {
      this.self := self;
      this.engine := engine;
      destination := Vec3(0.0, 0.0, 0.0);
      patrolMinX, patrolMaxX, patrolMinZ, patrolMaxZ := 0.0, 0.0, 0.0, 0.0;
      patrolCoroutine := None;
    }

    /**
     * Stop distance to target, strip `section` (the integer draw), and exactly one
     * patrol coroutine: any previous one is stopped and a fresh one started.
     */
    method Enter(section: nat)
      requires section < 3
      requires engine.Valid()
      modifies this, engine
      ensures engine.Valid()
      ensures InSection() && patrolMinX < patrolMaxX
      ensures Strip(patrolMinX, patrolMaxX) == SectionBounds(section)
      ensures engine.log == old(engine.log) + [StopDistanceToTarget(self)]
      ensures patrolCoroutine.Some? && patrolCoroutine.value !in old(engine.running)
      ensures patrolCoroutine.value >= old(engine.nextHandle)
      ensures engine.running == old(engine.running) - Held(old(patrolCoroutine)) + {patrolCoroutine.value}
      ensures destination == old(destination)
    {
      engine.Issue(StopDistanceToTarget(self));
      AssignRandomSection(section);
      if patrolCoroutine.Some? {
        engine.Stop(patrolCoroutine.value);
        patrolCoroutine := None;
      }
      var h := engine.Start();
      patrolCoroutine := Some(h);
    }

    method AssignRandomSection(section: nat)
      requires section < 3
      modifies this`patrolMinX, this`patrolMaxX, this`patrolMinZ, this`patrolMaxZ
      ensures Strip(patrolMinX, patrolMaxX) == SectionBounds(section)
      ensures InSection()
    {
      var sectionWidth := (MapMaxX - MapMinX) / 3.0;
      if section == 0 {
        patrolMinX := MapMinX;
        patrolMaxX := MapMinX + sectionWidth;
      } else if section == 1 {
        patrolMinX := MapMinX + sectionWidth;
        patrolMaxX := MapMinX + sectionWidth * 2.0;
      } else {
        patrolMinX := MapMinX + sectionWidth * 2.0;
        patrolMaxX := MapMaxX;
      }
      patrolMinZ := MapMinZ;
      patrolMaxZ := MapMaxZ;
    }

    /**
     * One frame: with a target, Attack is requested exactly when it is within
     * TargetDistance, and otherwise the tank follows it; without one nothing happens.
     */
    method Update(target: Option<Vec3>, distance: real, targetDistance: real, stopDistance: real)
      returns (next: Option<StateKind>)
      requires engine.Valid()
      modifies engine
      ensures engine.Valid() && engine.running == old(engine.running)
      ensures target.None? ==> next.None? && engine.log == old(engine.log)
      ensures target.Some? ==> (next.Some? <==> distance <= targetDistance)
      ensures next.Some? ==> next == Some(InAttack) && engine.log == old(engine.log)
      ensures target.Some? && distance > targetDistance ==>
                engine.log == old(engine.log)
                  + (if Follows(distance, stopDistance) then [SetDestination(self, target.value)] else [])
    {
      next := None;
      if target.Some? {
        if distance <= targetDistance {
          next := Some(InAttack);
        } else {
          FollowPlayer(target.value, distance, stopDistance);
        }
      }
    }

    /** Head for the target unless it is within half the stop distance. */
    method FollowPlayer(target: Vec3, distance: real, stopDistance: real)
      requires engine.Valid()
      modifies engine
      ensures engine.Valid() && engine.running == old(engine.running)
      ensures distance > stopDistance / 2.0 ==> engine.log == old(engine.log) + [SetDestination(self, target)]
      ensures distance <= stopDistance / 2.0 ==> engine.log == old(engine.log)
    {
      var closerStopDistance := stopDistance / 2.0;
      if distance > closerStopDistance {
        engine.Issue(SetDestination(self, target));
      }
    }

    /** Stop the patrol coroutine if there is one; with none, nothing changes. */
    method Exit()
      requires engine.Valid()
      modifies this, engine
      ensures engine.Valid()
      ensures patrolCoroutine.None?
      ensures engine.running == old(engine.running) - Held(old(patrolCoroutine))
      ensures engine.log == old(engine.log)
      ensures old(patrolCoroutine).None? ==> unchanged(this, engine)
      ensures destination == old(destination)
      ensures Strip(patrolMinX, patrolMaxX) == old(Strip(patrolMinX, patrolMaxX))
      ensures patrolMinZ == old(patrolMinZ) && patrolMaxZ == old(patrolMaxZ)
    {
      if patrolCoroutine.Some? {
        engine.Stop(patrolCoroutine.value);
        patrolCoroutine := None;
      }
    }

    /**
     * One pass of the Patrolling coroutine's loop: head for the target when there
     * is one, else for a fresh point of the strip (`ux`, `uz` the draws); then
     * the wait, drawn by `uw` between the two PatrolWaitTime values.
     */
    method PatrolStep(target: Option<Vec3>, ux: real, uz: real, uw: real, waitMin: real, waitMax: real)
      returns (wait: real)
      requires engine.Valid()
      requires 0.0 <= ux <= 1.0 && 0.0 <= uz <= 1.0 && 0.0 <= uw <= 1.0
      modifies this`destination, engine
      ensures engine.Valid() && engine.running == old(engine.running)
      ensures target.Some? ==>
                destination == old(destination)
                && engine.log == old(engine.log) + [SetDestination(self, target.value)]
      ensures target.None? ==>
                destination == PatrolPoint(patrolMinX, patrolMaxX, patrolMinZ, patrolMaxZ, ux, uz)
                && engine.log == old(engine.log) + [SetDestination(self, destination)]
      ensures target.None? && InSection() ==>
                destination.y == 0.0
                && patrolMinX <= destination.x <= patrolMaxX
                && patrolMinZ <= destination.z <= patrolMaxZ
      ensures wait == Draw(waitMin, waitMax, uw)
      ensures waitMin <= waitMax ==> waitMin <= wait <= waitMax
    {
      if target.Some? {
        engine.Issue(SetDestination(self, target.value));
      } else {
        destination := PatrolPoint(patrolMinX, patrolMaxX, patrolMinZ, patrolMaxZ, ux, uz);
        engine.Issue(SetDestination(self, destination));
      }
      wait := Draw(waitMin, waitMax, uw);
    }
  }
}

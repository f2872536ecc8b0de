/**
 * AttackState: a tank that joins the attack roster, fires at the target, dodges
 * what blocks its forward ray, flees when its health is low and returns to
 * patrolling when the target gets out of range.
 */
module Attack {
  import opened Types
  import opened Runtime
  import opened Registry
  import opened Sensor
  import opened Ballistics

  /** Offset of the formation slots from the first member's position. */
  const TriangleSideLength: real := 10.0
  /** The roster size whose fresh join asks for the triangle formation. */
  const Quorum: nat := 3

  /** A join of `t` onto `members` is fresh and brings the count to exactly three. */
  predicate TriggersTriangle(members: seq<TankId>, t: TankId) {
    t !in members && |members| + 1 == Quorum
  }

  /**
   * The destinations AssignTriangleFormation sends: nothing below three members;
   * otherwise members 0, 1 and 2 go to (L, 0, 0), (-L/2, 0, s*L/2) and
   * (-L/2, 0, -s*L/2) from member 0's own position, with s the engine's sqrt(3).
   */
  function TriangleFormation(members: seq<TankId>, positionOf: TankId -> Vec3, sqrt3: real): seq<Command> {
    if |members| < Quorum then []
    else
      var center := positionOf(members[0]);
      var L := TriangleSideLength;
      [ SetDestination(members[0], Add(center, Vec3(L, 0.0, 0.0))),
        SetDestination(members[1], Add(center, Vec3(-L / 2.0, 0.0, sqrt3 * L / 2.0))),
        SetDestination(members[2], Add(center, Vec3(-L / 2.0, 0.0, -sqrt3 * L / 2.0))) ]
  }

  /**
   * The triangle formation addresses exactly members 0, 1 and 2, keeps the height of
   * member 0, puts every slot at distance L from member 0's position and every two
   * slots sqrt(3)*L apart: L is the circumradius of the triangle, not its side.
   */
  lemma TriangleShape(members: seq<TankId>, positionOf: TankId -> Vec3, sqrt3: real)
    requires |members| >= Quorum && sqrt3 * sqrt3 == 3.0
    ensures var f := TriangleFormation(members, positionOf, sqrt3);
            var center := positionOf(members[0]);
            var L := TriangleSideLength;
            && |f| == 3
            && (forall k :: 0 <= k < 3 ==> f[k].SetDestination? && f[k].tank == members[k])
            && (forall k :: 0 <= k < 3 ==> f[k].dest.y == center.y)
            && (forall k :: 0 <= k < 3 ==> FlatDist2(f[k].dest, center) == L * L)
            && (forall j, k :: 0 <= j < k < 3 ==> FlatDist2(f[j].dest, f[k].dest) == 3.0 * L * L)
  {
    var f := TriangleFormation(members, positionOf, sqrt3);
    var c := positionOf(members[0]);
    var h := sqrt3 * 5.0;
    assert h * h == 75.0;
    assert f[1].dest == Vec3(c.x - 5.0, c.y, c.z + h);
    assert f[2].dest == Vec3(c.x - 5.0, c.y, c.z - h);
    assert (2.0 * h) * (2.0 * h) == 300.0;
  }

  /** The triangle requests made by a sequence of Enters onto `members`, without Exits. */
  function TriggerCount(members: seq<TankId>, joins: seq<TankId>): nat
    decreases joins
  {
    if joins == [] then 0
    else (if TriggersTriangle(members, joins[0]) then 1 else 0)
         + TriggerCount(Joined(members, joins[0]), joins[1..])
  }

  /**
   * Distinct tanks that are not yet members join one after another: the formation
   * is requested exactly once (on the join that makes three) if the roster starts
   * below three and reaches three, and never otherwise.
   */
  lemma {:induction false} OneTriangleRequest(members: seq<TankId>, joins: seq<TankId>)
    requires NoDup(joins)
    requires forall t :: t in joins ==> t !in members
    ensures TriggerCount(members, joins) ==
            if |members| < Quorum && |members| + |joins| >= Quorum then 1 else 0
    decreases joins
  {
    if joins != [] {
      var t := joins[0];
      assert t in joins;
      var next := Joined(members, t);
      assert next == members + [t];
      forall u | u in joins[1..] ensures u !in next {
        var i :| 1 <= i < |joins| && joins[i] == u;
        assert joins[0] != joins[i];
      }
      OneTriangleRequest(next, joins[1..]);
    }
  }

  /** A repeated Enter without Exit neither grows the roster nor requests the formation again. */
  lemma RepeatedJoin(members: seq<TankId>, t: TankId)
    ensures Joined(Joined(members, t), t) == Joined(members, t)
    ensures !TriggersTriangle(Joined(members, t), t)
    ensures |Joined(members, t)| <= |members| + 1
  {
  }

  /** Update's health check: the health component was found and its value is at most a third. */
  predicate LowHealth(healthFound: bool, currentHealth: real, maxHealth: real) {
    healthFound && currentHealth <= maxHealth / 3.0
  }

  class AttackState {
    const self: TankId
    const roster: Roster
    const engine: Engine
    /** sqrt(3) as the engine computes it for the triangle offsets. */
    const sqrt3: real

    var fireCoroutine: Option<Handle>
    var isDodging: bool
    /** Whether Enter found the TankHealth component. */
    var healthFound: bool
    /** StartingHealth read by Enter. */
    var maxHealth: real

    constructor (self: TankId, roster: Roster, engine: Engine, sqrt3: real)
      ensures this.self == self && this.roster == roster && this.engine == engine && this.sqrt3 == sqrt3
      ensures fireCoroutine.None? && !isDodging && !healthFound && maxHealth == 0.0
    {
      this.self := self;
      this.roster := roster;
      this.engine := engine;
      this.sqrt3 := sqrt3;
      fireCoroutine := None;
      isDodging := false;
      healthFound := false;
      maxHealth := 0.0;
    }

    /**
     * Join the roster (a repeated join changes nothing), ask for the triangle
     * formation on the fresh join that makes three, look up the health component,
     * and start firing unless a firing coroutine is already held.
     */
    method Enter(startingHealth: Option<real>, positionOf: TankId -> Vec3)
      requires roster.Valid() && engine.Valid()
      modifies this, roster, engine
      ensures roster.Valid() && engine.Valid()
      ensures roster.members == Joined(old(roster.members), self)
      ensures self in roster.members
      ensures engine.log == old(engine.log) + [StopDistanceToTarget(self)]
                + (if TriggersTriangle(old(roster.members), self)
                   then TriangleFormation(roster.members, positionOf, sqrt3) else [])
      ensures healthFound == startingHealth.Some?
      ensures maxHealth == if startingHealth.Some? then startingHealth.value else old(maxHealth)
      ensures isDodging == old(isDodging)
      ensures old(fireCoroutine).None? ==>
                fireCoroutine.Some? && fireCoroutine.value !in old(engine.running)
                && engine.running == old(engine.running) + {fireCoroutine.value}
      ensures old(fireCoroutine).Some? ==>
                fireCoroutine == old(fireCoroutine) && engine.running == old(engine.running)
    {
      engine.Issue(StopDistanceToTarget(self));
      var added := roster.Join(self);
      if added {
        if |roster.members| == Quorum {
          AssignTriangleFormation(positionOf);
        }
      }
      if startingHealth.Some? {
        healthFound := true;
        maxHealth := startingHealth.value;
      } else {
        healthFound := false;
      }
      if fireCoroutine.None? {
        var h := engine.Start();
        fireCoroutine := Some(h);
      }
    }

    method AssignTriangleFormation(positionOf: TankId -> Vec3)
      requires engine.Valid()
      modifies engine
      ensures engine.Valid() && engine.running == old(engine.running)
      ensures engine.log == old(engine.log) + TriangleFormation(roster.members, positionOf, sqrt3)
    {
      if |roster.members| < Quorum {
        return;
      }
      // The three destinations around the first member's position.
      var cmds := TriangleFormation(roster.members, positionOf, sqrt3);
      engine.Issue(cmds[0]);
      engine.Issue(cmds[1]);
      engine.Issue(cmds[2]);
      assert engine.log == old(engine.log) + cmds[..3];
      assert cmds[..3] == cmds;
    }

    /**
     * One frame. Low health asks for a fresh Flee state with the firing coroutine
     * stopped and skips the rest. Otherwise, with a target present, the state asks
     * for Patrolling exactly when the target is out of range; in range, a blocked
     * ray starts a dodge (firing stops) unless one is under way, and a clear ray
     * ends a dodge and resumes firing. Without a target nothing happens.
     */
    method Update(currentHealth: real, target: Option<Target>, distance: real, targetDistance: real,
                  hits: seq<Hit>, selfObj: ObjectId, position: Vec3, dodgeDirection: Vec3)
      returns (next: Option<StateKind>)
      requires engine.Valid()
      modifies this, engine
      ensures engine.Valid()
      ensures healthFound == old(healthFound) && maxHealth == old(maxHealth)
      ensures LowHealth(healthFound, currentHealth, maxHealth) ==>
                && next == Some(InFlee) && fireCoroutine.None? && isDodging == old(isDodging)
                && engine.log == old(engine.log)
                && engine.running == old(engine.running) - Held(old(fireCoroutine))
      ensures !LowHealth(healthFound, currentHealth, maxHealth) && target.None? ==>
                next.None? && unchanged(this, engine)
      ensures !LowHealth(healthFound, currentHealth, maxHealth) && target.Some? ==>
                (next.Some? <==> OutOfRange(distance, targetDistance))
                && (next.Some? ==> next == Some(InPatrol) && unchanged(this, engine))
      ensures !LowHealth(healthFound, currentHealth, maxHealth) && target.Some?
              && !OutOfRange(distance, targetDistance) ==>
                var blocked := Blocked(hits, target.value.obj, selfObj);
                && (blocked && !old(isDodging) ==>
                      && isDodging && fireCoroutine.None?
                      && engine.running == old(engine.running) - Held(old(fireCoroutine))
                      && engine.log == old(engine.log)
                           + [SetDestination(self, DodgeDestination(position, dodgeDirection))])
                && (blocked && old(isDodging) ==> unchanged(this, engine))
                && (!blocked && old(isDodging) ==>
                      && !isDodging && engine.log == old(engine.log)
                      && (old(fireCoroutine).None? ==>
                            fireCoroutine.Some? && fireCoroutine.value !in old(engine.running)
                            && engine.running == old(engine.running) + {fireCoroutine.value})
                      && (old(fireCoroutine).Some? ==>
                            fireCoroutine == old(fireCoroutine) && engine.running == old(engine.running)))
                && (!blocked && !old(isDodging) ==> unchanged(this, engine))
                && ((old(isDodging) ==> old(fireCoroutine).None?) ==> (isDodging ==> fireCoroutine.None?))
                && ((old(fireCoroutine).Some? || old(isDodging)) ==> (fireCoroutine.Some? || isDodging))
    {
      if LowHealth(healthFound, currentHealth, maxHealth) {
        // ChangeState(new FleeState(...)) is carried out by the caller; its Exit and
        // this branch both stop the firing coroutine.
        if fireCoroutine.Some? {
          engine.Stop(fireCoroutine.value);
          fireCoroutine := None;
        }
        return Some(InFlee);
      }
      if target.None? {
        return None;
      }
      if distance > targetDistance * 1.5 {
        return Some(InPatrol);
      }
      var blocked := DetectObstacle(hits, target.value.obj, selfObj);
      if blocked {
        if !isDodging {
          isDodging := true;
          if fireCoroutine.Some? {
            engine.Stop(fireCoroutine.value);
            fireCoroutine := None;
          }
          engine.Issue(SetDestination(self, DodgeDestination(position, dodgeDirection)));
        }
      } else {
        if isDodging {
          isDodging := false;
          if fireCoroutine.None? {
            var h := engine.Start();
            fireCoroutine := Some(h);
          }
        }
        // Turning towards the target (Quaternion.Slerp) is engine geometry.
      }
      return None;
    }

    /**
     * Leave the roster, keeping every other member in its place, and stop the
     * firing coroutine. Leaving when absent changes the roster in no way.
     */
    method Exit()
      requires roster.Valid() && engine.Valid()
      modifies this, roster, engine
      ensures roster.Valid() && engine.Valid()
      ensures roster.members == RemoveFirst(old(roster.members), self)
      ensures self !in roster.members
      ensures forall u :: u != self ==> (u in roster.members <==> u in old(roster.members))
      ensures self !in old(roster.members) ==> roster.members == old(roster.members)
      ensures fireCoroutine.None?
      ensures engine.running == old(engine.running) - Held(old(fireCoroutine))
      ensures engine.log == old(engine.log)
      ensures isDodging == old(isDodging) && healthFound == old(healthFound) && maxHealth == old(maxHealth)
    {
      var removed := roster.Leave(self);
      if fireCoroutine.Some? {
        engine.Stop(fireCoroutine.value);
        fireCoroutine := None;
      }
    }

    /**
     * One pass of FireAtTarget's loop: with a target present, close in (or stop
     * within the stop distance) and launch with the clamped force; without one,
     * do nothing.
     */
    method FireStep(target: Option<Vec3>, distance: real, stopDistance: real, gravity: real,
                    base: real, u: real, forceMin: real, forceMax: real)
      requires engine.Valid()
      requires target.Some? ==> IsBaseForce(base, distance, gravity)
      requires 0.0 <= u <= 1.0
      modifies engine
      ensures engine.Valid() && engine.running == old(engine.running)
      ensures target.None? ==> engine.log == old(engine.log)
      ensures target.Some? ==>
                engine.log == old(engine.log)
                  + [if distance > stopDistance then SetDestination(self, target.value) else ResetPath(self),
                     LaunchProjectile(self, LaunchForce(base, u, forceMin, forceMax))]
    {
      if target.Some? {
        if distance > stopDistance {
          engine.Issue(SetDestination(self, target.value));
        } else {
          engine.Issue(ResetPath(self));
        }
        var force := Varied(base, u);
        force := Clamp(force, forceMin, forceMax);
        engine.Issue(LaunchProjectile(self, force));
      }
    }
  }
}

/**
 * StrongAttackState: a tank that holds its ground (stop distance zero), joins the
 * strong-attack roster, keeps the roster in a circle around the target and
 * dodges what blocks its forward ray until the target gets out of range.
 */
module StrongAttack {
  import opened Types
  import opened Runtime
  import opened Registry
  import opened Sensor
  import opened Ballistics

  /** Radius of the circle formation around the target. */
  const TriangleSideLength: real := 10.0

  /** What AssignFormation reads of another tank. */
  datatype TankView = TankView(
    state: StateKind,   // its GetCurrentState()
    present: bool,      // the TankSM reference is not null
    hasNav: bool,       // its NavMeshAgent is not null
    navEnabled: bool,   // NavMeshAgent.isActiveAndEnabled
    dead: bool)         // TankHealth.IsDead

  /** The first filter: the tank's current state is AttackState or StrongAttackState. */
  predicate Offensive(v: TankView) {
    v.state == InAttack || v.state == InStrongAttack
  }

  /** The second filter: alive with an enabled navigation agent. */
  predicate Available(v: TankView) {
    v.present && v.hasNav && v.navEnabled && !v.dead
  }

  /** The members passing the first filter, in roster order. */
  function OffensiveMembers(s: seq<TankId>, view: TankId -> TankView): seq<TankId> {
    if s == [] then []
    else OffensiveMembers(s[..|s| - 1], view) + (if Offensive(view(s[|s| - 1])) then [s[|s| - 1]] else [])
  }

  /** The members passing the second filter, in roster order. */
  function AvailableMembers(s: seq<TankId>, view: TankId -> TankView): seq<TankId> {
    if s == [] then []
    else AvailableMembers(s[..|s| - 1], view) + (if Available(view(s[|s| - 1])) then [s[|s| - 1]] else [])
  }

  /** The working list of AssignFormation: both filters' results, one after the other. */
  function FormationList(s: seq<TankId>, view: TankId -> TankView): seq<TankId> {
    OffensiveMembers(s, view) + AvailableMembers(s, view)
  }

  /** How often `t` occurs in a list. */
  function Occurrences(s: seq<TankId>, t: TankId): nat {
    multiset(s)[t]
  }

  /** On a duplicate-free roster each filter keeps a member once if it passes and drops it otherwise. */
  lemma {:induction false} FilterOccurrences(s: seq<TankId>, view: TankId -> TankView, t: TankId)
    requires NoDup(s)
    ensures Occurrences(OffensiveMembers(s, view), t) == if t in s && Offensive(view(t)) then 1 else 0
    ensures Occurrences(AvailableMembers(s, view), t) == if t in s && Available(view(t)) then 1 else 0
    ensures |OffensiveMembers(s, view)| <= |s| && |AvailableMembers(s, view)| <= |s|
    ensures forall u :: u in OffensiveMembers(s, view) ==> u in s
    ensures forall u :: u in AvailableMembers(s, view) ==> u in s
  {
    if s != [] {
      var init := s[..|s| - 1];
      var last := s[|s| - 1];
      assert s == init + [last];
      assert NoDup(init) by {
        forall i, j | 0 <= i < j < |init| ensures init[i] != init[j] {
          assert init[i] == s[i] && init[j] == s[j];
        }
      }
      assert last !in init by {
        forall i | 0 <= i < |init| ensures init[i] != last {
          assert init[i] == s[i];
        }
      }
      FilterOccurrences(init, view, t);
      assert t in s <==> t in init || t == last;
    }
  }

  /**
   * The working list is at most twice the roster; every listed tank is a member;
   * a member passing both filters appears twice, one passing one filter once.
   */
  lemma FormationListOccurrences(s: seq<TankId>, view: TankId -> TankView, t: TankId)
    requires NoDup(s)
    ensures |FormationList(s, view)| <= 2 * |s|
    ensures forall u :: u in FormationList(s, view) ==> u in s
    ensures Occurrences(FormationList(s, view), t) ==
              (if t in s && Offensive(view(t)) then 1 else 0) + (if t in s && Available(view(t)) then 1 else 0)
    ensures t in s && Offensive(view(t)) && Available(view(t)) ==> Occurrences(FormationList(s, view), t) == 2
  {
    FilterOccurrences(s, view, t);
    assert multiset(FormationList(s, view)) == multiset(OffensiveMembers(s, view)) + multiset(AvailableMembers(s, view));
  }

  /** Slot angle of list index i among n: i * (360 / n) degrees, in [0, 360). */
  function SlotAngle(i: nat, n: nat): (a: real)
    requires i < n
    ensures 0.0 <= a < 360.0
  {
    var delta := 360.0 / n as real;
    assert (n - i) as real * delta > 0.0;
    assert n as real * delta == 360.0;
    i as real * delta
  }

  /** Slot angles strictly increase along the list. */
  lemma SlotAnglesIncrease(i: nat, j: nat, n: nat)
    requires i < j < n
    ensures SlotAngle(i, n) < SlotAngle(j, n)
  {
    var delta := 360.0 / n as real;
    assert (j - i) as real * delta > 0.0;
  }

  /** The destinations AssignFormation issues for its working list, around `center`. */
  function CircleFormation(list: seq<TankId>, center: Vec3): seq<Command> {
    seq(|list|, i requires 0 <= i < |list| =>
      SetDestinationOnCircle(list[i], center, TriangleSideLength, SlotAngle(i, |list|)))
  }

  /**
   * Slot i of the circle goes to list[i] at radius TriangleSideLength around the
   * target, at an angle in [0, 360) that grows with i; an empty list issues nothing.
   */
  lemma CircleFormationShape(list: seq<TankId>, center: Vec3)
    ensures var f := CircleFormation(list, center);
            && |f| == |list|
            && (list == [] ==> f == [])
            && (forall i :: 0 <= i < |f| ==>
                  f[i].SetDestinationOnCircle? && f[i].tank == list[i] && f[i].center == center
                  && f[i].radius == TriangleSideLength && 0.0 <= f[i].angleDeg < 360.0)
            && (forall i, j :: 0 <= i < j < |f| ==> f[i].angleDeg < f[j].angleDeg)
  {
    var f := CircleFormation(list, center);
    forall i, j | 0 <= i < j < |f| ensures f[i].angleDeg < f[j].angleDeg {
      SlotAnglesIncrease(i, j, |list|);
    }
  }

  /** The two foreach loops that build the working list. */
  method BuildFormationList(members: seq<TankId>, view: TankId -> TankView) returns (list: seq<TankId>)
    ensures list == FormationList(members, view)
  {
    list := [];
    var i := 0;
    while i < |members|
      invariant 0 <= i <= |members|
      invariant list == OffensiveMembers(members[..i], view)
    {
      assert members[..i + 1][..i] == members[..i];
      if Offensive(view(members[i])) {
        list := list + [members[i]];
      }
      i := i + 1;
    }
    assert members[..i] == members;
    var j := 0;
    while j < |members|
      invariant 0 <= j <= |members|
      invariant list == OffensiveMembers(members, view) + AvailableMembers(members[..j], view)
    {
      assert members[..j + 1][..j] == members[..j];
      var v := view(members[j]);
      if v.present && v.hasNav && v.navEnabled && !v.dead {
        list := list + [members[j]];
      }
      j := j + 1;
    }
    assert members[..j] == members;
  }

  class StrongAttackState {
    const self: TankId
    const roster: Roster
    const engine: Engine

    /** Stopped by Enter and Exit; no code of this state ever starts it. */
    var fireCoroutine: Option<Handle>
    var formationCoroutine: Option<Handle>
    var isDodging: bool

    constructor (self: TankId, roster: Roster, engine: Engine)
      ensures this.self == self && this.roster == roster && this.engine == engine
      ensures fireCoroutine.None? && formationCoroutine.None? && !isDodging
    {
      this.self := self;
      this.roster := roster;
      this.engine := engine;
      fireCoroutine := None;
      formationCoroutine := None;
      isDodging := false;
    }

    /**
     * Join the roster; every fresh join recomputes the formation around the target
     * (which must then be present). Stop the firing coroutine, and replace any
     * formation coroutine by one freshly started.
     */
    method Enter(target: Option<Vec3>, view: TankId -> TankView)
      requires roster.Valid() && engine.Valid()
      requires self !in roster.members ==> target.Some?
      modifies this, roster, engine
      ensures roster.Valid() && engine.Valid()
      ensures roster.members == Joined(old(roster.members), self)
      ensures self in roster.members
      ensures engine.log == old(engine.log) + [StopDistanceToZero(self)]
                + (if self !in old(roster.members)
                   then CircleFormation(FormationList(roster.members, view), target.value) else [])
      ensures fireCoroutine.None?
      ensures formationCoroutine.Some?
      ensures formationCoroutine.value !in old(engine.running)
      ensures engine.running == old(engine.running) - Held(old(fireCoroutine)) - Held(old(formationCoroutine))
                                + {formationCoroutine.value}
      ensures isDodging == old(isDodging)
    {
      engine.Issue(StopDistanceToZero(self));
      var added := roster.Join(self);
      if added {
        AssignFormation(target.value, view);
      }
      if fireCoroutine.Some? {
        engine.Stop(fireCoroutine.value);
        fireCoroutine := None;
      }
      if formationCoroutine.Some? {
        engine.Stop(formationCoroutine.value);
      }
      var h := engine.Start();
      formationCoroutine := Some(h);
    }

    /**
     * AssignFormation, also the body of the UpdateFormation coroutine: the working
     * list of the current roster placed on the circle around `center`.
     */
    method AssignFormation(center: Vec3, view: TankId -> TankView)
      requires engine.Valid()
      modifies engine
      ensures engine.Valid() && engine.running == old(engine.running)
      ensures engine.log == old(engine.log) + CircleFormation(FormationList(roster.members, view), center)
    {
      var list := BuildFormationList(roster.members, view);
      var n := |list|;
      var i := 0;
      while i < n
        invariant 0 <= i <= n
        invariant engine.Valid() && engine.running == old(engine.running)
        invariant engine.log == old(engine.log) + CircleFormation(list, center)[..i]
      {
        engine.Issue(SetDestinationOnCircle(list[i], center, TriangleSideLength, SlotAngle(i, n)));
        assert CircleFormation(list, center)[..i + 1]
            == CircleFormation(list, center)[..i] + [CircleFormation(list, center)[i]];
        i := i + 1;
      }
      assert CircleFormation(list, center)[..n] == CircleFormation(list, center);
    }

    /**
     * One frame. With a target present the state asks for Patrolling exactly when
     * the target is out of range (there is no health check); in range, a blocked
     * ray starts a dodge and stops firing unless a dodge is under way, and a clear
     * ray does nothing, so isDodging is never cleared.
     */
    method Update(target: Option<Target>, distance: real, targetDistance: real,
                  hits: seq<Hit>, selfObj: ObjectId, position: Vec3, dodgeDirection: Vec3)
      returns (next: Option<StateKind>)
      requires engine.Valid()
      modifies this, engine
      ensures engine.Valid()
      ensures old(isDodging) ==> isDodging
      ensures formationCoroutine == old(formationCoroutine)
      ensures target.None? ==> next.None? && unchanged(this, engine)
      ensures target.Some? ==>
                (next.Some? <==> OutOfRange(distance, targetDistance))
                && (next.Some? ==> next == Some(InPatrol) && unchanged(this, engine))
      ensures target.Some? && !OutOfRange(distance, targetDistance) ==>
                next.None?
                && (Blocked(hits, target.value.obj, selfObj) && !old(isDodging) ==>
                      && isDodging && fireCoroutine.None?
                      && engine.running == old(engine.running) - Held(old(fireCoroutine))
                      && engine.log == old(engine.log)
                           + [SetDestination(self, DodgeDestination(position, dodgeDirection))])
                && (!Blocked(hits, target.value.obj, selfObj) || old(isDodging) ==> unchanged(this, engine))
    {
      if target.None? {
        return None;
      }
      if distance > targetDistance * 1.5 {
        return Some(InPatrol);
      }
      // Turning towards the target (Quaternion.Slerp) is engine geometry.
      var blocked := DetectObstacle(hits, target.value.obj, selfObj);
      if blocked {
        if !isDodging {
          isDodging := true;
          if fireCoroutine.Some? {
            engine.Stop(fireCoroutine.value);
            fireCoroutine := None;
          }
          engine.Issue(SetDestination(self, DodgeDestination(position, dodgeDirection)));
        }
      }
      return None;
    }

    /**
     * One pass of FireAtTarget's loop: a shot is launched only when a target is
     * present and the forward ray is clear.
     */
    method FireStep(target: Option<Target>, hits: seq<Hit>, selfObj: ObjectId, distance: real,
                    gravity: real, base: real, u: real, forceMin: real, forceMax: real)
      requires engine.Valid()
      requires target.Some? ==> IsBaseForce(base, distance, gravity)
      requires 0.0 <= u <= 1.0
      modifies engine
      ensures engine.Valid() && engine.running == old(engine.running)
      ensures target.Some? && !Blocked(hits, target.value.obj, selfObj) ==>
                engine.log == old(engine.log) + [LaunchProjectile(self, LaunchForce(base, u, forceMin, forceMax))]
      ensures target.None? || Blocked(hits, target.value.obj, selfObj) ==> engine.log == old(engine.log)
    {
      if target.Some? {
        var blocked := DetectObstacle(hits, target.value.obj, selfObj);
        if !blocked {
          var force := Varied(base, u);
          force := Clamp(force, forceMin, forceMax);
          engine.Issue(LaunchProjectile(self, force));
        }
      }
    }

    /** Leave the roster, keeping every other member in its place, and stop both coroutines. */
    method Exit()
      requires roster.Valid() && engine.Valid()
      modifies this, roster, engine
      ensures roster.Valid() && engine.Valid()
      ensures roster.members == RemoveFirst(old(roster.members), self)
      ensures self !in roster.members
      ensures forall u :: u != self ==> (u in roster.members <==> u in old(roster.members))
      ensures self !in old(roster.members) ==> roster.members == old(roster.members)
      ensures fireCoroutine.None? && formationCoroutine.None?
      ensures engine.running == old(engine.running) - Held(old(fireCoroutine)) - Held(old(formationCoroutine))
      ensures engine.log == old(engine.log)
      ensures isDodging == old(isDodging)
    {
      var removed := roster.Leave(self);
      if fireCoroutine.Some? {
        engine.Stop(fireCoroutine.value);
        fireCoroutine := None;
      }
      if formationCoroutine.Some? {
        engine.Stop(formationCoroutine.value);
        formationCoroutine := None;
      }
    }
  }
}

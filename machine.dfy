/**
 * One enemy tank's state machine, as the four states use it: ChangeState exits
 * the current state, makes the requested one current and enters it. Each frame
 * runs the current state's Update and carries out the transition it requests.
 * The machine keeps one Patrolling, one Attack and one StrongAttack object for
 * the tank's lifetime and reuses them on every entry (an assumption about the
 * `m_States` holder, which is not part of this model); Attack asks for a newly
 * built FleeState every time.
 */
module Machine {
  import opened Types
  import opened Runtime
  import opened Registry
  import opened Sensor
  import opened Attack
  import opened StrongAttack
  import opened Flee
  import opened Patrolling

  /** What the scene offers one frame: everything the states read from the engine. */
  datatype Scene = Scene(
    target: Option<Target>,           // m_TankSM.Target
    distance: real,                   // distance to the target
    position: Vec3,                   // the tank's position
    forward: Vec3,                    // the tank's forward direction
    rotation: Quat,                   // the tank's rotation
    hits: seq<Hit>,                   // the forward RaycastAll of the offensive states
    selfObj: ObjectId,                // the tank's own scene object
    dodgeDirection: Vec3,             // the drawn dodge direction
    currentHealth: real,              // the reflected m_CurrentHealth
    startingHealth: Option<real>,     // the health component's StartingHealth, if found
    rotationDone: bool,               // Flee: within 0.1 degrees of the turn target
    obstacleAhead: bool,              // Flee: obstacle-layer hit within 10 units
    deltaTime: real,                  // Time.deltaTime
    positionOf: TankId -> Vec3,       // positions of attacking tanks
    view: TankId -> TankView)         // what AssignFormation reads of each tank

  /** The random draws of one frame. */
  datatype Draws = Draws(section: nat, enterCoin: real, obstacleCoin: real)

  predicate ValidDraws(d: Draws) {
    d.section < 3 && 0.0 <= d.enterCoin <= 1.0 && 0.0 <= d.obstacleCoin <= 1.0
  }

  function TargetPosition(t: Option<Target>): Option<Vec3> {
    if t.Some? then Some(t.value.position) else None
  }

  /**
   * What entering state `to` logs, given the two rosters before the entry: the
   * stop-distance setter, then Attack's triangle when the join makes three and
   * StrongAttack's circle on a fresh join.
   */
  function EntryCommands(to: StateKind, id: TankId, attackBefore: seq<TankId>, strongBefore: seq<TankId>,
                         s: Scene, sqrt3: real): seq<Command>
    requires to == InStrongAttack ==> s.target.Some?
  {
    match to
    case InPatrol => [StopDistanceToTarget(id)]
    case InAttack =>
      [StopDistanceToTarget(id)]
        + (if TriggersTriangle(attackBefore, id)
           then TriangleFormation(Joined(attackBefore, id), s.positionOf, sqrt3) else [])
    case InStrongAttack =>
      [StopDistanceToZero(id)]
        + (if id !in strongBefore
           then CircleFormation(FormationList(Joined(strongBefore, id), s.view), s.target.value.position)
           else [])
    case InFlee => [StopDistanceToZero(id)]
  }

  /**
   * The triangle that entering Attack logs on the join that makes three goes to
   * the three members, each `TriangleSideLength` from the first member's
   * position, and its slots are pairwise sqrt(3) times that apart: with the
   * machine's sqrt(3), whose square is 3, the formation is equilateral.
   */
  lemma EntryTriangleEquilateral(id: TankId, attackBefore: seq<TankId>, strongBefore: seq<TankId>,
                                 s: Scene, sqrt3: real)
    requires sqrt3 * sqrt3 == 3.0 && TriggersTriangle(attackBefore, id)
    ensures var f := EntryCommands(InAttack, id, attackBefore, strongBefore, s, sqrt3)[1..];
            var members := attackBefore + [id];
            var L := Attack.TriangleSideLength;
            && |f| == 3
            && (forall k :: 0 <= k < 3 ==> f[k].SetDestination? && f[k].tank == members[k])
            && (forall k :: 0 <= k < 3 ==> FlatDist2(f[k].dest, s.positionOf(members[0])) == L * L)
            && (forall j, k :: 0 <= j < k < 3 ==> FlatDist2(f[j].dest, f[k].dest) == 3.0 * L * L)
  {
    var members := Joined(attackBefore, id);
    assert members == attackBefore + [id];
    TriangleShape(members, s.positionOf, sqrt3);
    assert EntryCommands(InAttack, id, attackBefore, strongBefore, s, sqrt3)[1..]
        == TriangleFormation(members, s.positionOf, sqrt3);
  }

  /**
   * A roster after a move from state `from` to state `to` of a tank `id`: the
   * tank leaves the roster of `from` (List.Remove) and joins the roster of `to`;
   * no other member moves.
   */
  function RosterAfter(members: seq<TankId>, id: TankId, rosterState: StateKind,
                       from: StateKind, to: StateKind): seq<TankId>
  {
    if from == to then members
    else if from == rosterState then RemoveFirst(members, id)
    else if to == rosterState then Joined(members, id)
    else members
  }

  /**
   * A state change of tank `id` moves no other tank: every other tank is on a
   * roster afterwards exactly when it was before.
   */
  lemma OthersStay(members: seq<TankId>, id: TankId, rosterState: StateKind,
                   from: StateKind, to: StateKind, u: TankId)
    requires u != id
    ensures u in RosterAfter(members, id, rosterState, from, to) <==> u in members
  {
    if from != to && from == rosterState {
      RemoveFirstKeepsOthers(members, id, u);
    }
  }

  /**
   * The state after one frame, from the state before, whether a target exists,
   * the range, and the two conditions only Attack and Flee look at.
   */
  function Successor(k: StateKind, targetPresent: bool, distance: real, targetDistance: real,
                     lowHealth: bool, fleeDue: bool): StateKind
  {
    match k
    case InPatrol => if targetPresent && distance <= targetDistance then InAttack else InPatrol
    case InAttack =>
      if lowHealth then InFlee
      else if targetPresent && OutOfRange(distance, targetDistance) then InPatrol
      else InAttack
    case InStrongAttack =>
      if targetPresent && OutOfRange(distance, targetDistance) then InPatrol else InStrongAttack
    case InFlee => if fleeDue then InStrongAttack else InFlee
  }

  /**
   * The transition graph: Flee is entered only from Attack, StrongAttack only
   * from Flee, Attack only from Patrolling; Flee never returns to Patrolling, and
   * Patrolling is never left without a target.
   */
  lemma TransitionGraph(k: StateKind, targetPresent: bool, distance: real, targetDistance: real,
                        lowHealth: bool, fleeDue: bool)
    ensures var n := Successor(k, targetPresent, distance, targetDistance, lowHealth, fleeDue);
            && (n == InFlee && k != InFlee ==> k == InAttack)
            && (n == InStrongAttack && k != InStrongAttack ==> k == InFlee)
            && (n == InAttack && k != InAttack ==> k == InPatrol)
            && (k == InFlee ==> n != InPatrol)
            && (!targetPresent && !lowHealth && !fleeDue ==> n == k)
  {
  }

  class TankSM {
    const id: TankId
    const engine: Engine
    const attackRoster: Roster
    const strongRoster: Roster
    const targetDistance: real
    const stopDistance: real

    const patrolling: PatrollingState
    const attack: AttackState
    const strongAttack: StrongAttackState
    var flee: FleeState
    var current: StateKind

    /** Every state acts for this tank, on its engine and on the right roster. */
    ghost predicate Wired()
      reads this, patrolling, attack, strongAttack, flee
    {
      && patrolling.self == id && attack.self == id && strongAttack.self == id && flee.self == id
      && patrolling.engine == engine && attack.engine == engine
      && strongAttack.engine == engine && flee.engine == engine
      && attack.roster == attackRoster && strongAttack.roster == strongRoster
      && attackRoster != strongRoster
    }

    /**
     * The engine's sqrt(3) that Attack's triangle uses squares to 3. It reads only
     * constants, so once established it holds for the machine's whole life.
     */
    ghost predicate Calibrated() {
      attack.sqrt3 * attack.sqrt3 == 3.0
    }

    /**
     * The tank is on a roster exactly while in that roster's state, a coroutine
     * runs only for the current state, StrongAttack never holds a firing
     * coroutine, and the current state's own phase invariant holds.
     */
    ghost predicate Settled()
      reads this, engine, attackRoster, strongRoster, patrolling, attack, strongAttack, flee
    {
      && Wired()
      && engine.Valid() && attackRoster.Valid() && strongRoster.Valid()
      && (id in attackRoster.members <==> current == InAttack)
      && (id in strongRoster.members <==> current == InStrongAttack)
      && (patrolling.patrolCoroutine.Some? <==> current == InPatrol)
      && (current != InAttack ==> attack.fireCoroutine.None?)
      && (strongAttack.formationCoroutine.Some? <==> current == InStrongAttack)
      && strongAttack.fireCoroutine.None?
      && engine.running == Held(patrolling.patrolCoroutine) + Held(attack.fireCoroutine)
                           + Held(strongAttack.formationCoroutine)
      && (current == InPatrol ==> patrolling.InSection())
      && (current == InFlee ==> flee.Valid())
    }

    /** Settled, and an attacking tank is always either firing or dodging. */
    ghost predicate Valid()
      reads this, engine, attackRoster, strongRoster, patrolling, attack, strongAttack, flee
    {
      && Settled()
      && (current == InAttack ==> attack.fireCoroutine.Some? || attack.isDodging)
    }

    /** A tank starts patrolling the strip `section`, on neither roster. */
    constructor (id: TankId, attackRoster: Roster, strongRoster: Roster, sqrt3: real,
                 targetDistance: real, stopDistance: real, section: nat)
      requires attackRoster != strongRoster
      requires attackRoster.Valid() && strongRoster.Valid()
      requires id !in attackRoster.members && id !in strongRoster.members
      requires section < 3
      requires sqrt3 * sqrt3 == 3.0
      ensures Valid() && Calibrated() && current == InPatrol
      ensures this.id == id && this.attackRoster == attackRoster && this.strongRoster == strongRoster
      ensures fresh(engine) && engine.log == [StopDistanceToTarget(id)]
      ensures unchanged(attackRoster, strongRoster)
    {
      var e := new Engine();
      var p := new PatrollingState(id, e);
      var a := new AttackState(id, attackRoster, e, sqrt3);
      var s := new StrongAttackState(id, strongRoster, e);
      var f := new FleeState(id, e);
      this.id := id;
      this.engine := e;
      this.attackRoster := attackRoster;
      this.strongRoster := strongRoster;
      this.targetDistance := targetDistance;
      this.stopDistance := stopDistance;
      this.patrolling := p;
      this.attack := a;
      this.strongAttack := s;
      this.flee := f;
      this.current := InPatrol;
      new;
      p.Enter(section);
    }

    /** Between an Exit and the next Enter: on no roster, and no coroutine running. */
    ghost predicate Idle()
      reads this, engine, attackRoster, strongRoster, patrolling, attack, strongAttack, flee
    {
      && Wired()
      && engine.Valid() && attackRoster.Valid() && strongRoster.Valid()
      && id !in attackRoster.members && id !in strongRoster.members
      && patrolling.patrolCoroutine.None? && attack.fireCoroutine.None?
      && strongAttack.formationCoroutine.None? && strongAttack.fireCoroutine.None?
      && engine.running == {}
    }

    /**
     * ChangeState: exit the current state, make `to` current, enter it. Entering
     * Flee builds a new FleeState. StrongAttack and Flee read the target on entry.
     */
    method ChangeState(to: StateKind, s: Scene, d: Draws)
      requires Settled() && to != current && ValidDraws(d)
      requires to == InStrongAttack || to == InFlee ==> s.target.Some?
      modifies this, engine, attackRoster, strongRoster, patrolling, attack, strongAttack, flee
      ensures Valid() && current == to
      ensures to == InFlee ==> fresh(flee)
      ensures to != InFlee ==> flee == old(flee)
      ensures attackRoster.members == RosterAfter(old(attackRoster.members), id, InAttack, old(current), to)
      ensures strongRoster.members == RosterAfter(old(strongRoster.members), id, InStrongAttack, old(current), to)
      ensures engine.log == old(engine.log)
                + EntryCommands(to, id, old(attackRoster.members), old(strongRoster.members), s, attack.sqrt3)
    {
      ExitCurrent();
      current := to;
      EnterCurrent(s, d);
    }

    /** The current state's Exit; Flee's does nothing. */
    method ExitCurrent()
      requires Settled()
      modifies engine, attackRoster, strongRoster, patrolling, attack, strongAttack
      ensures Idle()
      ensures attackRoster.members ==
                if current == InAttack then RemoveFirst(old(attackRoster.members), id) else old(attackRoster.members)
      ensures strongRoster.members ==
                if current == InStrongAttack then RemoveFirst(old(strongRoster.members), id)
                else old(strongRoster.members)
      ensures engine.log == old(engine.log)
    {
      match current {
        case InPatrol => patrolling.Exit();
        case InAttack => attack.Exit();
        case InStrongAttack => strongAttack.Exit();
        case InFlee =>
      }
    }

    /** EnterCurrent's Attack case: only the Attack roster, the engine and the state change. */
    method EnterAttack(s: Scene)
      requires Idle() && current == InAttack
      modifies engine, attackRoster, attack
      ensures Valid()
      ensures attackRoster.members == Joined(old(attackRoster.members), id)
      ensures engine.log == old(engine.log)
                + EntryCommands(InAttack, id, old(attackRoster.members), old(strongRoster.members), s, attack.sqrt3)
    {
      attack.Enter(s.startingHealth, s.positionOf);
    }

    /** EnterCurrent's StrongAttack case: only its roster, the engine and the state change. */
    method EnterStrongAttack(s: Scene)
      requires Idle() && current == InStrongAttack && s.target.Some?
      modifies engine, strongRoster, strongAttack
      ensures Valid()
      ensures strongRoster.members == Joined(old(strongRoster.members), id)
      ensures engine.log == old(engine.log)
                + EntryCommands(InStrongAttack, id, old(attackRoster.members), old(strongRoster.members), s,
                                attack.sqrt3)
    {
      strongAttack.Enter(TargetPosition(s.target), s.view);
    }

    /** The current state's Enter, on a tank that has just left its previous state. */
    method EnterCurrent(s: Scene, d: Draws)
      requires Idle() && ValidDraws(d)
      requires current == InStrongAttack || current == InFlee ==> s.target.Some?
      modifies this`flee, engine, attackRoster, strongRoster, patrolling, attack, strongAttack
      ensures Valid()
      ensures current == InFlee ==> fresh(flee)
      ensures current != InFlee ==> flee == old(flee)
      ensures attackRoster.members ==
                if current == InAttack then Joined(old(attackRoster.members), id) else old(attackRoster.members)
      ensures strongRoster.members ==
                if current == InStrongAttack then Joined(old(strongRoster.members), id)
                else old(strongRoster.members)
      ensures engine.log == old(engine.log)
                + EntryCommands(current, id, old(attackRoster.members), old(strongRoster.members), s, attack.sqrt3)
    {
      match current {
        case InPatrol => patrolling.Enter(d.section);
        case InAttack => EnterAttack(s);
        case InStrongAttack => EnterStrongAttack(s);
        case InFlee =>
          flee := new FleeState(id, engine);
          flee.Enter(s.position, s.target.value.position, d.enterCoin);
      }
    }

    /**
     * One frame: the current state's Update, then the transition it asks for. The
     * new current state is Successor of the old one; a target must exist when an
     * Attack tank's health is low or a Flee tank's clock runs out, because Flee and
     * StrongAttack read it on entry.
     */
    method Tick(s: Scene, d: Draws)
      requires Valid() && ValidDraws(d) && s.deltaTime >= 0.0
      requires (current == InAttack && LowHealth(attack.healthFound, s.currentHealth, attack.maxHealth))
                 ==> s.target.Some?
      requires (current == InFlee && flee.hasRotated && flee.fleeTimer + s.deltaTime >= FleeDuration)
                 ==> s.target.Some?
      modifies this, engine, attackRoster, strongRoster, patrolling, attack, strongAttack, flee
      ensures Valid()
      ensures current == Successor(old(current), s.target.Some?, s.distance, targetDistance,
                                   old(LowHealth(attack.healthFound, s.currentHealth, attack.maxHealth)),
                                   old(flee.hasRotated) && old(flee.fleeTimer) + s.deltaTime >= FleeDuration)
      ensures current == InFlee && old(current) != InFlee ==> fresh(flee)
      ensures attackRoster.members == RosterAfter(old(attackRoster.members), id, InAttack, old(current), current)
      ensures strongRoster.members == RosterAfter(old(strongRoster.members), id, InStrongAttack, old(current), current)
      ensures current != old(current) && old(current) != InFlee ==>
                engine.log == old(engine.log)
                  + EntryCommands(current, id, old(attackRoster.members), old(strongRoster.members), s, attack.sqrt3)
      ensures current != old(current) && old(current) == InFlee ==>
                engine.log == old(engine.log)
                  + (if !old(flee.isFleeing) then [SetDestination(id, FleeTarget(s.position, s.forward))] else [])
                  + (if s.obstacleAhead then [SetDestination(id, FleeTarget(s.position, s.forward))] else [])
                  + EntryCommands(current, id, old(attackRoster.members), old(strongRoster.members), s, attack.sqrt3)
    {
      var next: Option<StateKind>;
      match current {
        case InPatrol =>
          next := patrolling.Update(TargetPosition(s.target), s.distance, targetDistance, stopDistance);
        case InAttack =>
          next := attack.Update(s.currentHealth, s.target, s.distance, targetDistance,
                                s.hits, s.selfObj, s.position, s.dodgeDirection);
        case InStrongAttack =>
          next := strongAttack.Update(s.target, s.distance, targetDistance,
                                      s.hits, s.selfObj, s.position, s.dodgeDirection);
        case InFlee =>
          next := flee.Update(s.rotationDone, s.position, s.forward, s.rotation,
                              s.obstacleAhead, d.obstacleCoin, s.deltaTime);
      }
      if next.Some? {
        ChangeState(next.value, s, d);
      }
    }
  }

  /**
   * A tank alone on the Attack roster whose ray to the target is blocked: its
   * first Update starts a dodge and stops the firing coroutine.
   */
  method DodgeStarted() returns (a: AttackState)
    ensures fresh(a) && fresh(a.roster) && fresh(a.engine)
    ensures a.roster.Valid() && a.engine.Valid() && a.roster.members == [a.self]
    ensures a.isDodging && a.fireCoroutine.None?
  {
    var engine := new Engine();
    var roster := new Roster();
    a := new AttackState(0, roster, engine, 0.0);
    var origin := Vec3(0.0, 0.0, 0.0);
    var at := (t: TankId) => origin;
    a.Enter(None, at);
    assert a.fireCoroutine.Some? && !a.isDodging && !a.healthFound;
    var joined := roster.members;
    assert joined == [0];
    var wall := [Hit(Some(2), false)];
    assert Blocks(wall[0], 1, 3);
    assert Blocked(wall, 1, 3) && !OutOfRange(0.0, 1.0);
    var next := a.Update(0.0, Some(Target(origin, 1)), 0.0, 1.0, wall, 3, origin, origin);
    assert roster.members == joined;
  }

  /**
   * Attack's dodge flag outlives its stint: a tank that leaves Attack while
   * dodging comes back dodging, and with its firing coroutine running again.
   */
  method StaleDodge() returns (dodging: bool, firing: bool)
    ensures dodging && firing
  {
    var a := DodgeStarted();
    a.Exit();
    a.Enter(None, (t: TankId) => Vec3(0.0, 0.0, 0.0));
    dodging := a.isDodging;
    firing := a.fireCoroutine.Some?;
  }
}

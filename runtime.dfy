/**
 * The engine services a tank's states call: starting and stopping coroutines on
 * the tank (StartCoroutine / StopCoroutine), and the navigation and launch calls
 * they make (NavMeshAgent.SetDestination, ResetPath, LaunchProjectile and the
 * stop-distance setters of the state machine), recorded in order in a log.
 */
module Runtime {
  import opened Types

  datatype Command =
    | SetDestination(tank: TankId, dest: Vec3)
      /** SetDestination(center + radius * (cos a, 0, sin a)) with a in degrees. */
    | SetDestinationOnCircle(tank: TankId, center: Vec3, radius: real, angleDeg: real)
    | ResetPath(tank: TankId)
    | LaunchProjectile(tank: TankId, force: real)
    | StopDistanceToTarget(tank: TankId)
    | StopDistanceToZero(tank: TankId)

  class Engine {
    /** Every command issued so far, oldest first. */
    var log: seq<Command>
    /** The coroutines currently running. */
    var running: set<Handle>
    /** The next handle StartCoroutine hands out. */
    var nextHandle: Handle

    ghost predicate Valid()
      reads this
    {
      forall h :: h in running ==> h < nextHandle
    }

    constructor ()
      ensures Valid() && log == [] && running == {}
    {
      log := [];
      running := {};
      nextHandle := 0;
    }

    /** StartCoroutine: a handle that is not running yet, now running. */
    method Start() returns (h: Handle)
      requires Valid()
      modifies this
      ensures Valid()
      ensures h !in old(running) && running == old(running) + {h}
      ensures h == old(nextHandle) && nextHandle == h + 1
      ensures log == old(log)
    {
      h := nextHandle;
      nextHandle := nextHandle + 1;
      running := running + {h};
    }

    /** StopCoroutine: stopping a coroutine that is not running changes nothing. */
    method Stop(h: Handle)
      requires Valid()
      modifies this
      ensures Valid()
      ensures running == old(running) - {h}
      ensures log == old(log) && nextHandle == old(nextHandle)
    {
      running := running - {h};
    }

    method Issue(c: Command)
      requires Valid()
      modifies this
      ensures Valid()
      ensures log == old(log) + [c]
      ensures running == old(running) && nextHandle == old(nextHandle)
    {
      log := log + [c];
    }
  }
}

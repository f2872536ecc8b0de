# Enemy-tank state machine

This project models the four behaviour states of the enemy-tank AI of a Unity game:
Patrolling, Attack, StrongAttack and Flee. It also models the per-tank machine that
switches between them. The model is written in Dafny and its properties are proved.

- **Patrolling** picks one of three strips of the map. A coroutine wanders inside the
  strip, or heads for the target while one exists. Attack is requested once the target
  is within `TargetDistance`.
- **Attack** joins the static `tanksInAttackState` roster. The third fresh member gets a
  triangle formation around the roster's first tank. A firing coroutine keeps shooting
  at the target. A blocked forward ray makes the tank dodge. Low health (at most a third
  of the starting health) requests a new Flee state. A target farther than
  1.5 × `TargetDistance` requests Patrolling.
- **StrongAttack** joins `tanksInStrongAttackState`. Every fresh join lays out the
  roster on a circle around the target, and a formation coroutine repeats that layout.
  The state dodges like Attack but never clears its dodge flag, and it has the same
  out-of-range rule.
- **Flee** turns ±90° from the direction away from the target. It then drives 50 units
  ahead, re-targets on obstacles, and after 6 seconds requests StrongAttack.

Shape of the model:

- All engine effects go to a `Runtime.Engine` object:
  - navigation calls, launches and stop-distance setters are appended to a command log;
  - `StartCoroutine`/`StopCoroutine` add and remove handles in a `running` set.
- Each roster is a shared `Registry.Roster` object.
- Every state is a class whose methods update its fields, as the C# objects do.
- An `Update` returns the transition it asks for. `Machine.TankSM.Tick` then carries out
  `ChangeState`: exit the current state, make the new one current, enter it.
- Each coroutine's loop body is one step method (`FireStep`, `AssignFormation`,
  `PatrolStep`).

Inputs stand in for everything the engine computes: positions, distances, ray hits, health
values, `Time.deltaTime` and every random draw. A float draw `Random.Range(a, b)` is
`Types.Draw(a, b, u)`, with `u` in [0, 1].

Behaviour of the code that the model keeps, although a reader might expect otherwise:

- Attack without a target does nothing unless its health is low: the health check
  (AttackState.cs:107-123) comes before the null check at AttackState.cs:128, so a
  low-health Attack tank requests Flee and stops firing whether or not a target exists.
  With a target, the range logic is AttackState.cs:128-179.
- StrongAttack, which has no health check, does nothing without a target
  (StrongAttackState.cs:84-127). Neither state returns to Patrolling when the target
  disappears.
- The flee threshold is `maxHealth / 3` (AttackState.cs:113).
- Flee always goes on to StrongAttack. Its transition to Patrolling is commented out
  (FleeState.cs:98).
- StrongAttack keeps dodging once it has started: the branch for a clear ray is empty
  (StrongAttackState.cs:121-124).

Facts about the code that the proofs bring out:

- Under the reuse assumption stated under "Left out" (one Attack object per tank):
  `AttackState.isDodging` is never reset by `Enter` or `Exit`. A tank that leaves Attack
  while dodging comes back dodging, with firing restarted. For its first blocked frames
  it then neither dodges nor stops firing. See `Machine.StaleDodge`.
- Under the same assumption, StrongAttack's dodge flag, once set, stays set on every
  later stint in StrongAttack.
- StrongAttack's `fireCoroutine` is stopped in `Enter` and `Exit` but never started,
  so a StrongAttack tank never fires (StrongAttackState.cs:61-65).
- StrongAttack's working list can hold a tank twice. A member passing both filters gets
  two circle slots.
- Attack's `TriangleSideLength` is the distance from the first tank's position to each
  slot. The triangle's sides are √3 times as long (`Attack.TriangleShape`).
- A turn that Flee picks on an obstacle after its initial turn is stored in
  `targetRotation` but never used. `RotateTank` runs only before `hasRotated` becomes
  true.

## Model

| member | source | states |
|---|---|---|
| Types.Draw | Assets/Scripts/AI/Tank/StateMachine/States/PatrollingState.cs:147-148 | A float `Random.Range(lo, hi)` lies between its bounds, in whichever order they come, and hits each bound at the ends of the unit draw. |
| Runtime.Engine.Start | Assets/Scripts/AI/Tank/StateMachine/States/PatrollingState.cs:34 | `StartCoroutine` hands out a handle that was not running and is now running. The command log is unchanged. |
| Runtime.Engine.Stop | Assets/Scripts/AI/Tank/StateMachine/States/PatrollingState.cs:31 | `StopCoroutine` removes exactly that handle. Stopping a handle that is not running changes nothing. |
| Registry.Roster.Contains | Assets/Scripts/AI/Tank/StateMachine/States/AttackState.cs:56 | `List.Contains` is true exactly when the tank is a member. |
| Registry.Roster.IndexOf | Assets/Scripts/AI/Tank/StateMachine/States/AttackState.cs:196 | Finds the first position of a member, which `List.Remove` deletes, or reports its absence. |
| Registry.Roster.Join | Assets/Scripts/AI/Tank/StateMachine/States/AttackState.cs:56-58 | Contains-then-Add appends a tank only when it is absent and reports whether it did. The roster stays duplicate-free. |
| Registry.Roster.Leave | Assets/Scripts/AI/Tank/StateMachine/States/AttackState.cs:194-196 | Contains-then-Remove deletes the tank's one occurrence and keeps the other members in order. A non-member leaves the roster unchanged. |
| Registry.RemoveFirstNoDup | Assets/Scripts/AI/Tank/StateMachine/States/StrongAttackState.cs:282-285 | On a duplicate-free roster, removal keeps it duplicate-free and removes the tank. The length drops by one, and every other member is still present. |
| Registry.RemoveFirst | Assets/Scripts/AI/Tank/StateMachine/States/AttackState.cs:196 | `List.Remove` shortens the list by one when the tank is present and leaves its length alone otherwise. |
| Registry.RemoveFirstAt | Assets/Scripts/AI/Tank/StateMachine/States/AttackState.cs:196 | Removal deletes exactly the first occurrence of the tank and keeps every element before and after it, in order. |
| Registry.RemoveFirstKeepsOthers | Assets/Scripts/AI/Tank/StateMachine/States/StrongAttackState.cs:282-285 | Removing one tank never adds or drops any other tank, whether or not the list has duplicates. |
| Sensor.DetectObstacle | Assets/Scripts/AI/Tank/StateMachine/States/AttackState.cs:307-336 | True exactly when some hit has a collider that is neither the target nor the tank. Ally tanks and other obstacles give the same answer. StrongAttackState.cs:228-257 is the same code. |
| Sensor.DodgeDistanceReached | Assets/Scripts/AI/Tank/StateMachine/States/AttackState.cs:342-352 | The dodge destination is the tank's position plus 20 times the dodge direction, so it lies 20 times the direction's length away. For a horizontal unit direction it is 20 units away at the tank's own height. StrongAttackState.cs:259-270 is the same code. |
| Ballistics.Clamp | Assets/Scripts/AI/Tank/StateMachine/States/AttackState.cs:292 | `Mathf.Clamp` lies in [min, max] when min ≤ max. It returns the value itself inside the band and the violated bound outside it. |
| Ballistics.Varied | Assets/Scripts/AI/Tank/StateMachine/States/AttackState.cs:286-289 | With a variation drawn in [−0.05, 0.25], the unclamped force lies between 0.95 and 1.25 times the base force. |
| Ballistics.LaunchForce | Assets/Scripts/AI/Tank/StateMachine/States/StrongAttackState.cs:208-214 | The launched force lies in [`LaunchForceMinMax.x`, `.y`] when min ≤ max. It equals the unclamped force when that is already inside the band. |
| Ballistics.ZeroDistanceZeroForce | Assets/Scripts/AI/Tank/StateMachine/States/AttackState.cs:286 | A target at distance 0 gets base force 0 and unclamped force 0, whatever the draw. |
| Attack.TriangleShape | Assets/Scripts/AI/Tank/StateMachine/States/AttackState.cs:214-248 | With three or more members, exactly three destinations are sent, to members 0, 1 and 2. Each is at flat distance `TriangleSideLength` from member 0's position, at its height. The three slots are pairwise √3 × `TriangleSideLength` apart. |
| Attack.OneTriangleRequest | Assets/Scripts/AI/Tank/StateMachine/States/AttackState.cs:56-65 | Over a run of distinct fresh joins, the formation is requested once if the run crosses three members and never otherwise. Joins that reach four or more never trigger it. |
| Attack.RepeatedJoin | Assets/Scripts/AI/Tank/StateMachine/States/AttackState.cs:54-70 | A repeated join does not change the roster and never triggers the formation. A join grows the roster by at most one. |
| Attack.AttackState.Enter | Assets/Scripts/AI/Tank/StateMachine/States/AttackState.cs:47-97 | Stop distance to target, then the roster join. The formation commands are logged exactly on the join that makes three. Health is looked up, and a firing coroutine is started only when none is held. |
| Attack.AttackState.AssignTriangleFormation | Assets/Scripts/AI/Tank/StateMachine/States/AttackState.cs:214-248 | Logs exactly the triangle formation of the current roster. Below three members nothing is logged. |
| Attack.AttackState.Update | Assets/Scripts/AI/Tank/StateMachine/States/AttackState.cs:102-180 | Low health requests Flee with firing stopped and skips the rest. Otherwise, with a target, Patrolling is requested exactly when the target is out of range, changing nothing. In range: a blocked ray starts a dodge and stops firing unless a dodge is already under way. A clear ray ends a dodge and restarts firing. Without a target nothing changes. |
| Attack.AttackState.Exit | Assets/Scripts/AI/Tank/StateMachine/States/AttackState.cs:188-212 | Leaves the roster, keeping the other members in order, and ends with no firing coroutine. A non-member leaves the roster unchanged. |
| Attack.AttackState.FireStep | Assets/Scripts/AI/Tank/StateMachine/States/AttackState.cs:261-301 | With a target: a destination on it beyond the stop distance, else `ResetPath`, then one launch with the clamped force. Without a target nothing is issued. |
| StrongAttack.FilterOccurrences | Assets/Scripts/AI/Tank/StateMachine/States/StrongAttackState.cs:140-156 | On a duplicate-free roster, each filter keeps a member once if it passes and drops it otherwise. Each filter's result is drawn from the roster. |
| StrongAttack.FormationListOccurrences | Assets/Scripts/AI/Tank/StateMachine/States/StrongAttackState.cs:136-156 | The working list has at most twice the roster's length and holds only members. A member occurs once per filter it passes, so twice if it passes both. |
| StrongAttack.BuildFormationList | Assets/Scripts/AI/Tank/StateMachine/States/StrongAttackState.cs:136-156 | The two loops build the offensive members in roster order, then the available members in roster order. |
| StrongAttack.SlotAngle | Assets/Scripts/AI/Tank/StateMachine/States/StrongAttackState.cs:160-167 | Slot i of n gets angle i · (360 / n), which lies in [0, 360). |
| StrongAttack.SlotAnglesIncrease | Assets/Scripts/AI/Tank/StateMachine/States/StrongAttackState.cs:160-167 | Slot angles strictly increase with the list index. |
| StrongAttack.CircleFormationShape | Assets/Scripts/AI/Tank/StateMachine/States/StrongAttackState.cs:158-172 | One destination per list entry, for that entry's tank, at radius `TriangleSideLength` around the target. Angles lie in [0, 360) and strictly increase. An empty list issues none. |
| StrongAttack.StrongAttackState.Enter | Assets/Scripts/AI/Tank/StateMachine/States/StrongAttackState.cs:43-73 | Stop distance zero, then the roster join. Every fresh join, whatever the count, logs the circle formation of the new roster. Firing ends null, and exactly one formation coroutine is held: a fresh one replaces any previous one. |
| StrongAttack.StrongAttackState.AssignFormation | Assets/Scripts/AI/Tank/StateMachine/States/StrongAttackState.cs:133-173 | Logs exactly the circle formation of the working list built from the current roster. |
| StrongAttack.StrongAttackState.Update | Assets/Scripts/AI/Tank/StateMachine/States/StrongAttackState.cs:79-127 | There is no health check. With a target, Patrolling is requested exactly when the target is out of range. In range, a blocked ray starts a dodge and stops firing unless already dodging. Nothing ever clears the dodge flag. |
| StrongAttack.StrongAttackState.FireStep | Assets/Scripts/AI/Tank/StateMachine/States/StrongAttackState.cs:196-221 | One launch with the clamped force exactly when a target is present and the ray is clear. Otherwise nothing is issued. |
| StrongAttack.StrongAttackState.Exit | Assets/Scripts/AI/Tank/StateMachine/States/StrongAttackState.cs:276-299 | Leaves the roster, keeping the others in order, and ends with both coroutine handles null. A non-member leaves the roster unchanged. |
| Flee.TurnAngle | Assets/Scripts/AI/Tank/StateMachine/States/FleeState.cs:49 | The turn is exactly +90 or −90 degrees, and +90 exactly when the coin exceeds 0.5. |
| Flee.FleeDistanceReached | Assets/Scripts/AI/Tank/StateMachine/States/FleeState.cs:79 | The flee destination is the tank's position plus 50 times its forward direction, so for a unit forward direction it lies exactly 50 units ahead. The obstacle branch at FleeState.cs:135 computes the same point. |
| Flee.FleeState.Enter | Assets/Scripts/AI/Tank/StateMachine/States/FleeState.cs:39-58 | Stop distance zero. The turn target is ±90 degrees from the direction away from the target. `hasRotated`, `isFleeing` and `fleeTimer` are reset. |
| Flee.FleeState.Update | Assets/Scripts/AI/Tank/StateMachine/States/FleeState.cs:65-102 | Before the turn completes, the frame only turns: no destination, no timer, no transition. The first frame after it issues the flee destination once and sets `isFleeing`. Later frames advance the timer. StrongAttack is requested exactly when the timer reaches 6, and Patrolling never. The flags never drop, and the timer never decreases and moves only while fleeing. |
| Flee.FleeState.CheckForObstacles | Assets/Scripts/AI/Tank/StateMachine/States/FleeState.cs:124-138 | An obstacle hit picks a new ±90° turn from the current heading and reissues a destination 50 units ahead. No hit changes neither. |
| Patrolling.SectionBounds | Assets/Scripts/AI/Tank/StateMachine/States/PatrollingState.cs:38-63 | Strip k spans −50 + k · 100/3 to −50 + (k+1) · 100/3 and is non-empty. The last strip ends exactly at 50. |
| Patrolling.SectionsTile | Assets/Scripts/AI/Tank/StateMachine/States/PatrollingState.cs:42-59 | The three strips start at −50, end at 50 and meet edge to edge. Every x of the map lies in one of them, and different strips share at most an edge. |
| Patrolling.PatrolPoint | Assets/Scripts/AI/Tank/StateMachine/States/PatrollingState.cs:147-149 | A wandering destination has y = 0 and lies inside the strip's x and z bounds. |
| Patrolling.PatrollingState.Enter | Assets/Scripts/AI/Tank/StateMachine/States/PatrollingState.cs:23-35 | Stop distance to target, and the strip of the drawn section with z bounds [−50, 50]. Any previous patrol coroutine is stopped, and exactly one fresh one is held. |
| Patrolling.PatrollingState.AssignRandomSection | Assets/Scripts/AI/Tank/StateMachine/States/PatrollingState.cs:38-63 | The switch sets the bounds of the drawn section's strip. |
| Patrolling.PatrollingState.Update | Assets/Scripts/AI/Tank/StateMachine/States/PatrollingState.cs:67-88 | With a target, Attack is requested exactly when it is within `TargetDistance`. Otherwise the tank follows it. Without a target nothing happens. |
| Patrolling.PatrollingState.FollowPlayer | Assets/Scripts/AI/Tank/StateMachine/States/PatrollingState.cs:104-111 | The destination is set to the target exactly when the distance exceeds half the stop distance. |
| Patrolling.PatrollingState.Exit | Assets/Scripts/AI/Tank/StateMachine/States/PatrollingState.cs:124-132 | Ends with no patrol coroutine. With none held, nothing changes. |
| Patrolling.PatrollingState.PatrolStep | Assets/Scripts/AI/Tank/StateMachine/States/PatrollingState.cs:136-157 | Heads for the target when there is one, otherwise for a new point of the strip. The wait lies between the two `PatrolWaitTime` values. |
| Machine.TransitionGraph | Assets/Scripts/AI/Tank/StateMachine/States/FleeState.cs:95-100 | Flee is entered only from Attack, StrongAttack only from Flee, and Attack only from Patrolling. Flee never returns to Patrolling. Without a target, low health or an expired flee clock, nothing changes state. |
| Machine.EntryTriangleEquilateral | Assets/Scripts/AI/Tank/StateMachine/States/AttackState.cs:62-65 | The triangle that entering Attack logs on the join that makes three goes to the three members, each `TriangleSideLength` from the first member's position and pairwise √3 × `TriangleSideLength` apart, given the machine's √3 (`Calibrated`, established by the constructor). |
| Machine.OthersStay | Assets/Scripts/AI/Tank/StateMachine/States/AttackState.cs:194-196 | A state change of one tank leaves every other tank on a roster exactly when it was on it before. |
| Machine.TankSM.ChangeState | Assets/Scripts/AI/Tank/StateMachine/States/AttackState.cs:115 | Exit, switch, enter. Entering Flee builds a new FleeState. The tank leaves the old state's roster (`List.Remove`) and joins the new one's; no other member moves. The log grows by exactly the new state's entry commands: its stop-distance setter, then Attack's triangle on the join that makes three or StrongAttack's circle on a fresh join. Afterwards the tank is on a roster exactly while in that roster's state, and only the current state's coroutine runs. |
| Machine.TankSM.Tick | Assets/Scripts/AI/Tank/StateMachine/States/AttackState.cs:115-137 | One frame moves the tank to exactly the state its current state requests, and keeps the machine invariant. Each transition takes the tank off the old state's roster and onto the new one's, moving no other member, and logs the new state's entry commands. The transitions are: Attack to a new Flee at low health (AttackState.cs:115) and to Patrolling out of range (AttackState.cs:137); Patrolling to Attack within `TargetDistance` (PatrollingState.cs:80); StrongAttack to Patrolling out of range (StrongAttackState.cs:94); Flee to StrongAttack once its clock reaches 6 seconds (FleeState.cs:99). That last frame logs its flee destinations first. |
| Machine.StaleDodge | Assets/Scripts/AI/Tank/StateMachine/States/AttackState.cs:145-166 | With the Attack object reused, a dodge, an Exit and a new Enter leave the state both dodging and firing. |

## Left out

- TankPositionMgr.cs is not part of this model. Its only logic resets a static position, and it does not compile.
- `TankSM`, `BaseState` and `TankHealth` are not part of this model:
  - `ChangeState` is modelled as exit, switch, enter;
  - the machine starts in Patrolling;
  - the machine is assumed to build one Patrolling, one Attack and one StrongAttack object per tank and to reuse them on every entry through `m_States`. The four state files support this: Patrolling, Attack and StrongAttack are requested as `m_TankSM.m_States.…` (PatrollingState.cs:80, AttackState.cs:137, FleeState.cs:99), while Flee is constructed at AttackState.cs:115. The null checks on held coroutine handles at the start of `Enter` (AttackState.cs:93, PatrollingState.cs:29, StrongAttackState.cs:68) only matter for an object that is entered again. `Machine.StaleDodge` and the lasting StrongAttack dodge flag hold under this assumption;
  - health is an optional starting value plus a current value given each frame.
- Each machine is one tank. The rosters are shared objects, but other tanks' machines are not modelled: the machine invariant assumes no one else adds or removes this tank.
- Quaternion geometry is not modelled: the `Slerp` turns towards the target, Flee's `RotateTowards`, `LookRotation` and `Angle`.
  - Flee's "within 0.1°" is a boolean input.
  - Turn targets are kept as symbolic values.
- Physics raycasts, `Vector3.Distance` and `Physics.gravity` are inputs. Flee's layer-filtered ray is a boolean input.
- Square roots and trigonometry are not computed:
  - the base launch force is an input `b ≥ 0` with b² = distance × gravity;
  - √3 is a constant `s` of AttackState; the geometry lemmas require s² = 3, and the machine's constructor requires it and records it as `Machine.TankSM.Calibrated`;
  - circle slots are logged with their angle and radius instead of a cos/sin point.
- `Random.insideUnitSphere`, the y = 0 projection and the normalisation of the dodge direction are not modelled: the direction is an input. `Sensor.DodgeDistanceReached` gives the 20-unit distance for a direction that is horizontal and of unit length.
- Coroutine timing is not modelled:
  - `WaitForSeconds`, the initial `FireInterval.x` wait and the 0.5 s formation period are left out;
  - Unity runs a coroutine's first pass synchronously inside `StartCoroutine`; the model counts every pass as a separate step method (`FireStep`, `AssignFormation`, `PatrolStep`).
- `lock (stateLock)` is not modelled: everything runs on one thread, and roster operations are atomic methods.
- The reflection read of `m_CurrentHealth` is replaced by values given to `Update`. `Debug.Log` calls are dropped.
- Floats are exact reals: rounding is not modelled, and neither is the infinite `deltaAngle` of an empty working list, which no loop iteration reads.
- `GenerateNewPatrolDestination` (PatrollingState.cs:92-100) is never called. Its body is the else branch of `PatrolStep`.
- `FormationSideLength` (StrongAttackState.cs:26) is unused by the code. The two `RaycastDistance` ray lengths (5 for the offensive states, 10 for Flee) are not modelled: the hits are inputs.
- A vanished or null `NavMeshAgent` in StrongAttack's first filter would throw at `SetDestination`. The model logs the command regardless.
- The code dereferences the target without a check in `DetectObstacle`, `AssignFormation` and `FleeState.Enter`. In the model these callers require a target:
  - `StrongAttackState.Enter` on a fresh join;
  - `TankSM.Tick` when Attack's health is low or Flee's clock runs out.
- Attack.AttackState.Update: "dodging implies no firing coroutine" is promised only when it held before the call. `Enter` and `Exit` never reset `isDodging`, so it fails after a re-entry (`Machine.StaleDodge`).
- Machine.TankSM.Tick: the `Scene`'s view of the tank itself (`view(id)`: its state, presence, agent and death) is not tied to the machine's own `current`. Every view is an input, so StrongAttack's filters may see this tank in a state other than the one it is in; the contracts hold for every view.
- Machine.TankSM.Tick: the log of a frame without a transition is stated only by the current state's `Update` contract, not restated by `Tick`.
- Attack.AttackState.Enter: the model assumes the `m_CurrentHealth` field is always found when the health component is.

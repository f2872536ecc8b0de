/**
 * Values shared by every state of the enemy-tank controller: optional values,
 * three-dimensional points over exact reals, identities of tanks, scene objects
 * and coroutine handles, the kind of state a tank is in, and the engine's
 * uniform random draw on an interval.
 */
module Types {

  datatype Option<T> = None | Some(value: T)

  /** Identity of a tank (its TankSM component). */
  type TankId = nat

  /** Identity of a scene object (a GameObject hit by a ray, the target, the tank itself). */
  type ObjectId = nat

  /** Identity of a running coroutine started on a tank. */
  type Handle = nat

  /** A Vector3, with exact reals in place of single-precision floats. */
  datatype Vec3 = Vec3(x: real, y: real, z: real)

  function Add(a: Vec3, b: Vec3): Vec3 {
    Vec3(a.x + b.x, a.y + b.y, a.z + b.z)
  }

  function Sub(a: Vec3, b: Vec3): Vec3 {
    Vec3(a.x - b.x, a.y - b.y, a.z - b.z)
  }

  function Scale(a: Vec3, k: real): Vec3 {
    Vec3(a.x * k, a.y * k, a.z * k)
  }

  /** Squared horizontal (x, z) distance between two points. */
  function FlatDist2(a: Vec3, b: Vec3): real {
    (a.x - b.x) * (a.x - b.x) + (a.z - b.z) * (a.z - b.z)
  }

  /** Squared length of a vector. */
  function Norm2(a: Vec3): real {
    a.x * a.x + a.y * a.y + a.z * a.z
  }

  /** Moving along `v` scaled by `k` covers k * k times the squared length of `v`. */
  lemma ScaledNorm2(v: Vec3, k: real)
    ensures Norm2(Scale(v, k)) == k * k * Norm2(v)
  {
    assert (v.x * k) * (v.x * k) == k * k * (v.x * v.x);
    assert (v.y * k) * (v.y * k) == k * k * (v.y * v.y);
    assert (v.z * k) * (v.z * k) == k * k * (v.z * v.z);
  }

  /** An engine rotation; the controller only stores and passes them on. */
  datatype Quat = Quat(w: real, x: real, y: real, z: real)

  /** The pursued target: its position and the scene object it is. */
  datatype Target = Target(position: Vec3, obj: ObjectId)

  /** The handles an optional coroutine field holds: none, or the one it names. */
  function Held(h: Option<Handle>): set<Handle> {
    if h.Some? then {h.value} else {}
  }

  /**
   * The range rule of both offensive states: the target is farther than 1.5 times
   * the tank's TargetDistance.
   */
  predicate OutOfRange(distance: real, targetDistance: real) {
    distance > targetDistance * 1.5
  }

  /** The kind of a tank's current state (`GetCurrentState() is ...`). */
  datatype StateKind = InPatrol | InAttack | InStrongAttack | InFlee

  /**
   * `Random.Range(lo, hi)` on floats, given the uniform fraction `u` drawn by the
   * engine: the result lies between the two bounds whichever order they come in.
   */
  function Draw(lo: real, hi: real, u: real): (r: real)
    requires 0.0 <= u <= 1.0
    ensures lo <= hi ==> lo <= r <= hi
    ensures hi <= lo ==> hi <= r <= lo
    ensures u == 0.0 ==> r == lo
    ensures u == 1.0 ==> r == hi
  {
    DrawBetween(lo, hi, u);
    lo + u * (hi - lo)
  }

  /** The scaled offset of a draw lies between 0 and the interval's signed width. */
  lemma DrawBetween(lo: real, hi: real, u: real)
    requires 0.0 <= u <= 1.0
    ensures lo <= hi ==> 0.0 <= u * (hi - lo) <= hi - lo
    ensures hi <= lo ==> hi - lo <= u * (hi - lo) <= 0.0
  {
    if lo < hi {
      MulBetween(u, hi - lo);
    } else if lo == hi {
      assert hi - lo == 0.0;
      assert u * (hi - lo) == 0.0;
    } else {
      MulBetween(u, lo - hi);
      assert u * (hi - lo) == -(u * (lo - hi));
    }
  }

  lemma MulBetween(u: real, d: real)
    requires 0.0 <= u <= 1.0 && 0.0 <= d
    ensures 0.0 <= u * d <= d
  {
    assert d - u * d == (1.0 - u) * d;
  }
}

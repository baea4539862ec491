/**
 * The free-fly camera of camera.js: a position, yaw and pitch in degrees, a
 * movement speed and a mouse sensitivity, and the forward/right basis the
 * renderer and the keyboard handler use.
 *
 * Math.cos and Math.sin (of an angle given in degrees, after the source's
 * multiplication by pi / 180) and Math.hypot are not available as exact
 * functions, so every method that needs them takes a `Trig` value; `Sound`
 * states the facts about them the proofs rely on.
 */
module FlyCamera {
  import opened Vectors

  /** The trigonometric functions the camera calls: cosine and sine of an angle in degrees, and Math.hypot. */
  datatype Trig = Trig(cosDeg: real -> real, sinDeg: real -> real, hypot: (real, real, real) -> real)

  /**
   * What the real functions satisfy: cos^2 + sin^2 = 1, the cosine is
   * positive strictly inside (-90, 90) degrees, and hypot is the
   * non-negative square root of the sum of squares.
   */
  ghost predicate Sound(t: Trig)
  {
    && (forall a: real :: t.cosDeg(a) * t.cosDeg(a) + t.sinDeg(a) * t.sinDeg(a) == 1.0)
    && (forall a: real :: -89.0 <= a <= 89.0 ==> t.cosDeg(a) > 0.0)
    && (forall x: real, y: real, z: real ::
          t.hypot(x, y, z) >= 0.0 && t.hypot(x, y, z) * t.hypot(x, y, z) == x * x + y * y + z * z)
  }

  const PitchLimit: real := 89.0

  const WorldUp: Vec3 := Vec3(0.0, 1.0, 0.0)

  // ---------------------------------------------------------------------
  // Vector helpers (add, scale, cross, normalize)
  // ---------------------------------------------------------------------

  function Add(a: Vec3, b: Vec3): Vec3
  {
    Vec3(a.x + b.x, a.y + b.y, a.z + b.z)
  }

  function Scale(a: Vec3, s: real): Vec3
  {
    Vec3(a.x * s, a.y * s, a.z * s)
  }

  /** The cross product a x b: orthogonal to both of its arguments. */
  function Cross(a: Vec3, b: Vec3): (r: Vec3)
    ensures Dot(r, a) == 0.0 && Dot(r, b) == 0.0
  {
    Vec3(a.y * b.z - a.z * b.y,
         a.z * b.x - a.x * b.z,
         a.x * b.y - a.y * b.x)
  }

  /** Crossing with the world up axis drops the vertical component: f x (0, 1, 0) = (-f.z, 0, f.x). */
  lemma CrossWorldUp(f: Vec3)
    ensures Cross(f, WorldUp) == Vec3(-f.z, 0.0, f.x)
    ensures Cross(f, WorldUp).y == 0.0
  {
  }

  /** Math.hypot of the three components. */
  function Length(t: Trig, a: Vec3): real
  {
    t.hypot(a.x, a.y, a.z)
  }

  /**
   * normalize(a): a divided by its length.  Scaling the result back by that
   * length gives a again.
   */
  function Normalize(t: Trig, a: Vec3): (r: Vec3)
    requires Length(t, a) != 0.0
    ensures Scale(r, Length(t, a)) == a
  {
    var l := Length(t, a);
    Vec3(a.x / l, a.y / l, a.z / l)
  }

  /** With a sound hypot, a normalized vector has unit length. */
  lemma NormalizeUnit(t: Trig, a: Vec3)
    requires Sound(t) && Length(t, a) != 0.0
    ensures Dot(Normalize(t, a), Normalize(t, a)) == 1.0
  {
    var l := Length(t, a);
    var r := Normalize(t, a);
    assert l * l == Dot(a, a);
    calc {
      Dot(r, r) * (l * l);
      (r.x * l) * (r.x * l) + (r.y * l) * (r.y * l) + (r.z * l) * (r.z * l);
      Dot(a, a);
      l * l;
    }
  }

  // ---------------------------------------------------------------------
  // Pitch clamp
  // ---------------------------------------------------------------------

  function Min(a: real, b: real): real
  {
    if a <= b then a else b
  }

  function Max(a: real, b: real): real
  {
    if a >= b then a else b
  }

  /**
   * Math.max(-89, Math.min(89, v)): always within [-89, 89], v itself
   * exactly when v already is, and the nearer limit otherwise.
   */
  function Clamp(v: real): (r: real)
    ensures -PitchLimit <= r <= PitchLimit
    ensures r == v <==> -PitchLimit <= v <= PitchLimit
    ensures v < -PitchLimit ==> r == -PitchLimit
    ensures v > PitchLimit ==> r == PitchLimit
  {
    Max(-PitchLimit, Min(PitchLimit, v))
  }

  // ---------------------------------------------------------------------
  // The basis updateVectors computes
  // ---------------------------------------------------------------------

  /** forward = (cos yaw cos pitch, sin pitch, sin yaw cos pitch). */
  function Forward(t: Trig, yaw: real, pitch: real): Vec3
  {
    Vec3(t.cosDeg(yaw) * t.cosDeg(pitch), t.sinDeg(pitch), t.sinDeg(yaw) * t.cosDeg(pitch))
  }

  /** The horizontal unit vector a quarter turn clockwise from the yaw direction. */
  function RightOf(t: Trig, yaw: real): Vec3
  {
    Vec3(-t.sinDeg(yaw), 0.0, t.cosDeg(yaw))
  }

  /** Forward has unit length for every yaw and pitch. */
  lemma ForwardUnit(t: Trig, yaw: real, pitch: real)
    requires Sound(t)
    ensures Dot(Forward(t, yaw, pitch), Forward(t, yaw, pitch)) == 1.0
  {
    var cy, sy, cp, sp := t.cosDeg(yaw), t.sinDeg(yaw), t.cosDeg(pitch), t.sinDeg(pitch);
    assert cy * cy + sy * sy == 1.0;
    assert cp * cp + sp * sp == 1.0;
    calc {
      Dot(Forward(t, yaw, pitch), Forward(t, yaw, pitch));
      (cy * cp) * (cy * cp) + sp * sp + (sy * cp) * (sy * cp);
      (cy * cy + sy * sy) * (cp * cp) + sp * sp;
      cp * cp + sp * sp;
    }
  }

  /** A non-negative number whose square is that of a positive c is c. */
  lemma NonNegativeRoot(l: real, c: real)
    requires l >= 0.0 && c > 0.0 && l * l == c * c
    ensures l == c
  {
    assert (l - c) * (l + c) == 0.0;
    assert l + c > 0.0;
  }

  /**
   * For a pitch inside the clamp range, normalize(cross(forward, up)) is
   * exactly (-sin yaw, 0, cos yaw): the cross product has length cos pitch,
   * which is positive there.
   */
  lemma RightFromForward(t: Trig, yaw: real, pitch: real)
    requires Sound(t) && -PitchLimit <= pitch <= PitchLimit
    ensures Length(t, Cross(Forward(t, yaw, pitch), WorldUp)) != 0.0
    ensures Normalize(t, Cross(Forward(t, yaw, pitch), WorldUp)) == RightOf(t, yaw)
  {
    var f := Forward(t, yaw, pitch);
    var cy, sy, cp := t.cosDeg(yaw), t.sinDeg(yaw), t.cosDeg(pitch);
    var c := Cross(f, WorldUp);
    CrossWorldUp(f);
    assert c == Vec3(-(sy * cp), 0.0, cy * cp);
    var l := Length(t, c);
    assert cy * cy + sy * sy == 1.0;
    assert cp > 0.0;
    calc {
      l * l;
      c.x * c.x + c.y * c.y + c.z * c.z;
      (sy * sy + cy * cy) * (cp * cp);
      cp * cp;
    }
    NonNegativeRoot(l, cp);
    assert -(sy * cp) / cp == -sy;
    assert (cy * cp) / cp == cy;
  }

  /** The basis from updateVectors is orthonormal and right is horizontal. */
  lemma BasisOrthonormal(t: Trig, yaw: real, pitch: real)
    requires Sound(t)
    ensures Dot(Forward(t, yaw, pitch), RightOf(t, yaw)) == 0.0
    ensures Dot(RightOf(t, yaw), RightOf(t, yaw)) == 1.0
    ensures RightOf(t, yaw).y == 0.0
  {
    ForwardUnit(t, yaw, pitch);
    assert t.cosDeg(yaw) * t.cosDeg(yaw) + t.sinDeg(yaw) * t.sinDeg(yaw) == 1.0;
  }

  // ---------------------------------------------------------------------
  // Keyboard movement
  // ---------------------------------------------------------------------

  /** keys[k] is truthy: present and true (a missing key reads as undefined). */
  predicate Pressed(keys: map<string, bool>, k: string)
  {
    k in keys && keys[k]
  }

  /** What key k contributes to a movement coefficient: amount when pressed, nothing otherwise. */
  function Gain(keys: map<string, bool>, k: string, amount: real): real
  {
    if Pressed(keys, k) then amount else 0.0
  }

  /**
   * Where handleKeyboard leaves the camera: pos moved by
   * speed * (w - s) along forward and speed * (d - a) along right, each key
   * counting 1 when pressed and 0 otherwise.
   */
  function Moved(pos: Vec3, forward: Vec3, right: Vec3, speed: real, keys: map<string, bool>): Vec3
  {
    var ahead := Gain(keys, "w", speed) + Gain(keys, "s", -speed);
    var aside := Gain(keys, "a", -speed) + Gain(keys, "d", speed);
    Add(Add(pos, Scale(forward, ahead)), Scale(right, aside))
  }

  /** Two steps along the same vector add up: (p + k1 v) + k2 v = p + (k1 + k2) v. */
  lemma StepsAdd(p: Vec3, v: Vec3, k1: real, k2: real)
    ensures Add(Add(p, Scale(v, k1)), Scale(v, k2)) == Add(p, Scale(v, k1 + k2))
  {
    assert v.x * k1 + v.x * k2 == v.x * (k1 + k2);
    assert v.y * k1 + v.y * k2 == v.y * (k1 + k2);
    assert v.z * k1 + v.z * k2 == v.z * (k1 + k2);
  }

  /** A step of length zero stays put. */
  lemma NoStep(p: Vec3, v: Vec3)
    ensures Add(p, Scale(v, 0.0)) == p
  {
  }

  /** With no movement key down the camera stays where it is. */
  lemma NoKeysStayPut(pos: Vec3, forward: Vec3, right: Vec3, speed: real, keys: map<string, bool>)
    requires !Pressed(keys, "w") && !Pressed(keys, "s") && !Pressed(keys, "a") && !Pressed(keys, "d")
    ensures Moved(pos, forward, right, speed, keys) == pos
  {
  }

  /** w and s together (and no strafing) cancel out; so do a and d. */
  lemma OppositeKeysCancel(pos: Vec3, forward: Vec3, right: Vec3, speed: real, keys: map<string, bool>)
    requires Pressed(keys, "w") == Pressed(keys, "s")
    requires Pressed(keys, "a") == Pressed(keys, "d")
    ensures Moved(pos, forward, right, speed, keys) == pos
  {
    assert Gain(keys, "w", speed) + Gain(keys, "s", -speed) == 0.0;
    assert Gain(keys, "a", -speed) + Gain(keys, "d", speed) == 0.0;
    NoStep(pos, forward);
    NoStep(pos, right);
  }

  /** Strafing with a or d alone never changes the height, because right is horizontal. */
  lemma StrafeKeepsHeight(pos: Vec3, forward: Vec3, right: Vec3, speed: real, keys: map<string, bool>)
    requires right.y == 0.0
    requires Pressed(keys, "w") == Pressed(keys, "s")
    ensures Moved(pos, forward, right, speed, keys).y == pos.y
  {
    assert Gain(keys, "w", speed) + Gain(keys, "s", -speed) == 0.0;
    NoStep(pos, forward);
  }

  /** With only w down the camera moves exactly speed along a unit forward. */
  lemma ForwardStepLength(pos: Vec3, forward: Vec3, right: Vec3, speed: real, keys: map<string, bool>)
    requires Dot(forward, forward) == 1.0
    requires Pressed(keys, "w") && !Pressed(keys, "s") && !Pressed(keys, "a") && !Pressed(keys, "d")
    ensures var d := Moved(pos, forward, right, speed, keys);
            Square(d.x - pos.x) + Square(d.y - pos.y) + Square(d.z - pos.z) == speed * speed
  {
    var d := Moved(pos, forward, right, speed, keys);
    assert d == Vec3(pos.x + forward.x * speed, pos.y + forward.y * speed, pos.z + forward.z * speed);
    calc {
      Square(d.x - pos.x) + Square(d.y - pos.y) + Square(d.z - pos.z);
      Dot(forward, forward) * (speed * speed);
    }
  }

  /**
   * What a keyboard step from `from` to `to` keeps: the height when w and s
   * are both up or both down, and a distance of exactly speed when w alone
   * is down.
   */
  predicate SteadyStep(from: Vec3, to: Vec3, speed: real, keys: map<string, bool>)
  {
    && (Pressed(keys, "w") == Pressed(keys, "s") ==> to.y == from.y)
    && (Pressed(keys, "w") && !Pressed(keys, "s") && !Pressed(keys, "a") && !Pressed(keys, "d") ==>
          Square(to.x - from.x) + Square(to.y - from.y) + Square(to.z - from.z) == speed * speed)
  }

  /** On the basis a valid camera holds (unit forward, horizontal right), every keyboard step is steady. */
  lemma ValidBasisMoves(pos: Vec3, forward: Vec3, right: Vec3, speed: real, keys: map<string, bool>)
    ensures Dot(forward, forward) == 1.0 && right.y == 0.0 ==>
              SteadyStep(pos, Moved(pos, forward, right, speed, keys), speed, keys)
  {
    if right.y == 0.0 && Pressed(keys, "w") == Pressed(keys, "s") {
      StrafeKeepsHeight(pos, forward, right, speed, keys);
    }
    if Dot(forward, forward) == 1.0 && Pressed(keys, "w") && !Pressed(keys, "s") && !Pressed(keys, "a") && !Pressed(keys, "d") {
      ForwardStepLength(pos, forward, right, speed, keys);
    }
  }

  // ---------------------------------------------------------------------
  // The camera object
  // ---------------------------------------------------------------------

  class Camera {
    var pos: Vec3
    var yaw: real
    var pitch: real
    var speed: real
    var sensitivity: real
    var forward: Vec3
    var right: Vec3

    /**
     * The invariant the methods keep: pitch within the clamp range, and
     * forward/right an orthonormal pair with right horizontal.
     */
    predicate Valid()
      reads this
    {
      && -PitchLimit <= pitch <= PitchLimit
      && Dot(forward, forward) == 1.0
      && Dot(right, right) == 1.0
      && Dot(forward, right) == 0.0
      && right.y == 0.0
    }

    /** The default camera: at (0, 1.5, 6) looking down -z, with right = forward x up. */
    constructor()
      ensures Valid()
      ensures pos == Vec3(0.0, 1.5, 6.0) && yaw == -90.0 && pitch == 0.0
      ensures speed == 0.05 && sensitivity == 0.1
      ensures forward == Vec3(0.0, 0.0, -1.0) && right == Vec3(1.0, 0.0, 0.0)
      ensures right == Cross(forward, WorldUp)
    {
      pos := Vec3(0.0, 1.5, 6.0);
      yaw := -90.0;
      pitch := 0.0;
      speed := 0.05;
      sensitivity := 0.1;
      forward := Vec3(0.0, 0.0, -1.0);
      right := Vec3(1.0, 0.0, 0.0);
    }

    /**
     * updateVectors(): forward from yaw and pitch, then right as the
     * normalized cross product of forward and the world up axis.
     */
    method UpdateVectors(t: Trig)
      requires Sound(t) && -PitchLimit <= pitch <= PitchLimit
      modifies this
      ensures forward == Forward(t, yaw, pitch)
      ensures right == RightOf(t, yaw)
      ensures Valid()
      ensures pos == old(pos) && yaw == old(yaw) && pitch == old(pitch)
      ensures speed == old(speed) && sensitivity == old(sensitivity)
    {
      var cy := t.cosDeg(yaw);
      var sy := t.sinDeg(yaw);
      var cp := t.cosDeg(pitch);
      var sp := t.sinDeg(pitch);
      forward := Vec3(cy * cp, sp, sy * cp);
      var f := forward;
      assert f == Forward(t, yaw, pitch);
      RightFromForward(t, yaw, pitch);
      right := Normalize(t, Cross(f, WorldUp));
      ForwardUnit(t, yaw, pitch);
      BasisOrthonormal(t, yaw, pitch);
    }

    /**
     * handleKeyboard(keys): one step along forward for w, back for s, and
     * along right for d, left for a, each scaled by speed.  Only pos changes.
     */
    method HandleKeyboard(keys: map<string, bool>)
      modifies this
      ensures pos == Moved(old(pos), forward, right, speed, keys)
      ensures yaw == old(yaw) && pitch == old(pitch)
      ensures forward == old(forward) && right == old(right)
      ensures speed == old(speed) && sensitivity == old(sensitivity)
      ensures old(Valid()) ==> Valid()
      ensures old(Valid()) ==> SteadyStep(old(pos), pos, speed, keys)
    {
      var f := forward;
      var r := right;
      ghost var start := pos;
      NoStep(start, f);
      if Pressed(keys, "w") {
        pos := Add(pos, Scale(f, speed));
      }
      ghost var ahead := Gain(keys, "w", speed);
      assert pos == Add(start, Scale(f, ahead));
      if Pressed(keys, "s") {
        StepsAdd(start, f, ahead, -speed);
        pos := Add(pos, Scale(f, -speed));
      }
      ahead := ahead + Gain(keys, "s", -speed);
      assert pos == Add(start, Scale(f, ahead));
      ghost var moved := pos;
      NoStep(moved, r);
      if Pressed(keys, "a") {
        pos := Add(pos, Scale(r, -speed));
      }
      ghost var aside := Gain(keys, "a", -speed);
      assert pos == Add(moved, Scale(r, aside));
      if Pressed(keys, "d") {
        StepsAdd(moved, r, aside, speed);
        pos := Add(pos, Scale(r, speed));
      }
      assert pos == Moved(start, f, r, speed, keys);
      ValidBasisMoves(start, f, r, speed, keys);
    }

    /**
     * handleMouse(dx, dy): yaw and pitch move by the deltas times the
     * sensitivity, pitch is clamped to [-89, 89], and the basis is rebuilt.
     */
    method HandleMouse(dx: real, dy: real, t: Trig)
      requires Sound(t)
      modifies this
      ensures yaw == old(yaw) + dx * old(sensitivity)
      ensures pitch == Clamp(old(pitch) + dy * old(sensitivity))
      ensures -PitchLimit <= pitch <= PitchLimit
      ensures forward == Forward(t, yaw, pitch) && right == RightOf(t, yaw)
      ensures Valid()
      ensures pos == old(pos) && speed == old(speed) && sensitivity == old(sensitivity)
    {
      yaw := yaw + dx * sensitivity;
      pitch := pitch + dy * sensitivity;
      pitch := Max(-PitchLimit, Min(PitchLimit, pitch));
      UpdateVectors(t);
    }
  }
}

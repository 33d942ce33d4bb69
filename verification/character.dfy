/** The shared movement rule (`gamesim::stepCharacter`), one tick of 1/60 s, over the
    reals. The numbers of the tuning table are written out in the products. */
module Character {
  import opened Common
  import Terrain

  datatype Vec3 = Vec3(x: real, y: real, z: real)

  datatype Input = Input(sequence: nat, moveForward: real, moveRight: real, yaw: real, jump: bool, sprint: bool)

  /** All that a tick depends on and changes. */
  datatype Body = Body(position: Vec3, velocity: Vec3, grounded: bool, facingYaw: real)

  /** The mathematics a step relies on: sine, cosine, square root, the length of a
      vector and the ground. Of the sine and the cosine only SpeedFollowsStick asks anything. */
  datatype World = World(sin: real -> real, cos: real -> real, sqrt: real -> real,
                         norm: Vec3 -> real, ground: Terrain.Field)
  {
    ghost predicate RootOf(r: real) { r >= 0.0 ==> sqrt(r) >= 0.0 && sqrt(r) * sqrt(r) == r }

    ghost predicate NormOf(v: Vec3) { norm(v) >= 0.0 && norm(v) * norm(v) == v.x * v.x + v.y * v.y + v.z * v.z }

    ghost predicate Lawful() {
      && (forall r :: RootOf(r))
      && (forall v :: NormOf(v))
      && Terrain.Tame(ground, -55.0, 55.0, 1.6132)
    }

    /** Where a grounded capsule's centre is. */
    function RestY(x: real, z: real): real { ground(x, z) + 0.85 }
  }

  /** The game's own world is lawful, given a lawful square root and length. */
  lemma GameWorldLawful(w: World)
    requires w.ground == Terrain.Height(Terrain.Hash)
    requires (forall r :: w.RootOf(r)) && (forall v :: w.NormOf(v))
    ensures w.Lawful()
  {
    Terrain.TerrainTame();
  }

  // ---------------------------------------------------------------- the rule

  /** The stick, turned by the yaw. */
  function Turned(sin: real, cos: real, i: Input): (real, real) {
    (sin * i.moveForward + cos * i.moveRight, -cos * i.moveForward + sin * i.moveRight)
  }

  function Length(w: World, x: real, z: real): real { w.sqrt(x * x + z * z) }

  function Capped(x: real, z: real, length: real): (real, real, real) {
    if length > 1.0 then (x / length, z / length, length) else (x, z, length)
  }

  /** The direction wished for, at most one long, and its length before that cap. */
  function Wish(w: World, i: Input): (real, real, real) {
    var (x, z) := Turned(w.sin(i.yaw), w.cos(i.yaw), i);
    Capped(x, z, Length(w, x, z))
  }

  function Target(w: World, i: Input): (real, real) {
    var (x, z, _) := Wish(w, i);
    if i.sprint then (x * 9.0, z * 9.0) else (x * 5.0, z * 5.0)
  }

  function Blend(v: real, target: real): real { v + (target - v) * 0.35 }

  /** The new velocity, and whether the feet are still on the ground. */
  function Accelerated(w: World, b: Body, i: Input): (Vec3, bool) {
    var (tx, tz) := Target(w, i);
    var x := if b.grounded then tx else Blend(b.velocity.x, tx);
    var z := if b.grounded then tz else Blend(b.velocity.z, tz);
    if i.jump && b.grounded then (Vec3(x, 7.5, z), false)
    else if !b.grounded then
      var y := b.velocity.y - 20.0 / 60.0;
      (Vec3(x, if y < -50.0 then -50.0 else y, z), false)
    else (Vec3(x, b.velocity.y, z), true)
  }

  function Moved(p: Vec3, v: Vec3): Vec3 { Vec3(p.x + v.x / 60.0, p.y + v.y / 60.0, p.z + v.z / 60.0) }

  /** Sitting on the ground if through it, or just above it and not rising. */
  function Resolved(w: World, p: Vec3, v: Vec3, yaw: real): Body {
    var rest := w.RestY(p.x, p.z);
    if p.y <= rest || (v.y <= 0.0 && p.y - rest <= 0.15) then
      Body(p.(y := rest), v.(y := 0.0), true, yaw)
    else Body(p, v, false, yaw)
  }

  function Step(w: World, b: Body, i: Input): Body {
    var v := Accelerated(w, b, i).0;
    Resolved(w, Moved(b.position, v), v, if Wish(w, i).2 > 0.0 then i.yaw else b.facingYaw)
  }

  function Run(w: World, b: Body, inputs: seq<Input>): Body
    decreases |inputs|
  {
    if inputs == [] then b else Run(w, Step(w, b, inputs[0]), inputs[1..])
  }

  // ------------------------------------------------------------- in place

  class Character {
    var position: Vec3
    var velocity: Vec3
    var grounded: bool
    var facingYaw: real

    constructor (position: Vec3)
      ensures Now() == Body(position, Vec3(0.0, 0.0, 0.0), false, 0.0)
    {
      this.position := position;
      velocity := Vec3(0.0, 0.0, 0.0);
      grounded := false;
      facingYaw := 0.0;
    }

    function Now(): Body
      reads this
    {
      Body(position, velocity, grounded, facingYaw)
    }
  }

  /** Horizontal intent. */
  method TargetVelocity(w: World, input: Input) returns (targetX: real, targetZ: real, wishLength: real)
    ensures (targetX, targetZ) == Target(w, input) && wishLength == Wish(w, input).2
  {
    var sinYaw, cosYaw := w.sin(input.yaw), w.cos(input.yaw);
    var wishX := sinYaw * input.moveForward + cosYaw * input.moveRight;
    var wishZ := -cosYaw * input.moveForward + sinYaw * input.moveRight;
    assert (wishX, wishZ) == Turned(sinYaw, cosYaw, input);
    wishLength := Length(w, wishX, wishZ);
    ghost var capped := Capped(wishX, wishZ, wishLength);
    assert capped == Wish(w, input);
    if wishLength > 1.0 {
      wishX := wishX / wishLength;
      wishZ := wishZ / wishLength;
    }
    assert (wishX, wishZ, wishLength) == capped;
    targetX := if input.sprint then wishX * 9.0 else wishX * 5.0;
    targetZ := if input.sprint then wishZ * 9.0 else wishZ * 5.0;
  }

  /** Velocity, horizontal then vertical. */
  method Accelerate(ghost w: World, character: Character, input: Input, targetX: real, targetZ: real)
    requires (targetX, targetZ) == Target(w, input)
    modifies character`velocity, character`grounded
    ensures (character.velocity, character.grounded) == Accelerated(w, old(character.Now()), input)
  {
    var v := character.velocity;
    if character.grounded {
      character.velocity := v.(x := targetX, z := targetZ);
    } else {
      character.velocity := v.(x := v.x + (targetX - v.x) * 0.35, z := v.z + (targetZ - v.z) * 0.35);
    }
    if input.jump && character.grounded {
      character.velocity := character.velocity.(y := 7.5);
      character.grounded := false;
    } else if !character.grounded {
      character.velocity := character.velocity.(y := character.velocity.y - 20.0 / 60.0);
      if character.velocity.y < -50.0 {
        character.velocity := character.velocity.(y := -50.0);
      }
    }
  }

  /** Ground contact. */
  method ResolveGround(w: World, character: Character)
    modifies character`position, character`velocity, character`grounded
    ensures character.Now() == Resolved(w, old(character.position), old(character.velocity), character.facingYaw)
  {
    var groundY := w.ground(character.position.x, character.position.z);
    var restY := groundY + 0.85;
    var descending := character.velocity.y <= 0.0;
    if character.position.y <= restY {
      character.position := character.position.(y := restY);
      character.velocity := character.velocity.(y := 0.0);
      character.grounded := true;
    } else if descending && character.position.y - restY <= 0.15 {
      character.position := character.position.(y := restY);
      character.velocity := character.velocity.(y := 0.0);
      character.grounded := true;
    } else {
      character.grounded := false;
    }
  }

  method StepCharacter(w: World, character: Character, input: Input)
    modifies character
    ensures character.Now() == Step(w, old(character.Now()), input)
  {
    var targetX, targetZ, wishLength := TargetVelocity(w, input);
    Accelerate(w, character, input, targetX, targetZ);
    if wishLength > 0.0 {
      character.facingYaw := input.yaw;
    }
    var v, p := character.velocity, character.position;
    character.position := Vec3(p.x + v.x / 60.0, p.y + v.y / 60.0, p.z + v.z / 60.0);
    ResolveGround(w, character);
  }

  // --------------------------------------------------- what every tick keeps

  ghost predicate WithinSpeed(x: real, z: real, most: real) { x * x + z * z <= most * most }

  /** Turning by the yaw keeps the length of the stick ... */
  lemma TurnedKeepsLength(s: real, c: real, i: Input)
    requires s * s + c * c == 1.0
    ensures var (x, z) := Turned(s, c, i); x * x + z * z == i.moveForward * i.moveForward + i.moveRight * i.moveRight
  {
  }

  /** ... and strafing is at right angles to walking forward. */
  lemma StrafeIsAcross(s: real, c: real, forward: Input, strafe: Input)
    requires forward.moveRight == 0.0 && strafe.moveForward == 0.0
    ensures var (x, z) := Turned(s, c, forward); var (u, v) := Turned(s, c, strafe); x * u + z * v == 0.0
  {
  }

  lemma UnitLength(x: real, z: real, cx: real, cz: real, length: real)
    requires length > 1.0 && length * length == x * x + z * z && x == cx * length && z == cz * length
    ensures cx * cx + cz * cz == 1.0
  {
    assert x * x == (cx * cx) * (length * length) && z * z == (cz * cz) * (length * length);
    assert (cx * cx + cz * cz - 1.0) * (length * length) == 0.0;
    PositiveProduct(length, length);
  }

  lemma CappedAtOne(x: real, z: real, length: real)
    requires length >= 0.0 && length * length == x * x + z * z
    ensures var (cx, cz, _) := Capped(x, z, length); WithinSpeed(cx, cz, 1.0)
  {
    if length > 1.0 {
      UnitLength(x, z, x / length, z / length, length);
    } else {
      Product(1.0 - length, 1.0 + length);
    }
  }

  lemma TargetSpeed(w: World, i: Input)
    requires w.Lawful()
    ensures var (tx, tz) := Target(w, i); WithinSpeed(tx, tz, 9.0) && (!i.sprint ==> WithinSpeed(tx, tz, 5.0))
  {
    var (x, z) := Turned(w.sin(i.yaw), w.cos(i.yaw), i);
    SquaresAddUp(x, z);
    assert w.RootOf(x * x + z * z);
    assert Length(w, x, z) >= 0.0 && Length(w, x, z) * Length(w, x, z) == x * x + z * z;
    CappedAtOne(x, z, Length(w, x, z));
    var wish := Wish(w, i);
    assert WithinSpeed(wish.0, wish.1, 1.0);
    ScaledSpeed(wish.0, wish.1);
  }

  /** The stick turned by the yaw, its length and what becomes of it. */
  lemma TurnedStick(w: World, i: Input) returns (x: real, z: real, length: real, cx: real, cz: real)
    ensures (x, z) == Turned(w.sin(i.yaw), w.cos(i.yaw), i) && length == Length(w, x, z)
    ensures (cx, cz, length) == Capped(x, z, length)
    ensures Target(w, i) == if i.sprint then (cx * 9.0, cz * 9.0) else (cx * 5.0, cz * 5.0)
  {
    var turned := Turned(w.sin(i.yaw), w.cos(i.yaw), i);
    x, z := turned.0, turned.1;
    length := Length(w, x, z);
    var capped := Capped(x, z, length);
    cx, cz := capped.0, capped.1;
  }

  lemma LengthSquared(w: World, x: real, z: real, length: real)
    requires w.Lawful() && length == Length(w, x, z)
    ensures length >= 0.0 && length * length == x * x + z * z
  {
    SquaresAddUp(x, z);
    assert w.RootOf(x * x + z * z);
  }

  lemma CappedLength(x: real, z: real, length: real, squared: real, cx: real, cz: real)
    requires length >= 0.0 && length * length == squared == x * x + z * z && (cx, cz, length) == Capped(x, z, length)
    ensures cx * cx + cz * cz == if squared > 1.0 then 1.0 else squared
  {
    if length > 1.0 {
      UnitLength(x, z, x / length, z / length, length);
      PositiveProduct(length - 1.0, length + 1.0);
    } else {
      Product(1.0 - length, 1.0 + length);
    }
  }

  lemma StickLength(w: World, i: Input, x: real, z: real, stick: real)
    requires w.sin(i.yaw) * w.sin(i.yaw) + w.cos(i.yaw) * w.cos(i.yaw) == 1.0
    requires stick == i.moveForward * i.moveForward + i.moveRight * i.moveRight
    requires (x, z) == Turned(w.sin(i.yaw), w.cos(i.yaw), i)
    ensures x * x + z * z == stick
  {
    TurnedKeepsLength(w.sin(i.yaw), w.cos(i.yaw), i);
  }

  lemma WishLength(w: World, i: Input, stick: real) returns (cx: real, cz: real)
    requires w.Lawful() && w.sin(i.yaw) * w.sin(i.yaw) + w.cos(i.yaw) * w.cos(i.yaw) == 1.0
    requires stick == i.moveForward * i.moveForward + i.moveRight * i.moveRight
    ensures cx * cx + cz * cz == if stick > 1.0 then 1.0 else stick
    ensures Target(w, i) == if i.sprint then (cx * 9.0, cz * 9.0) else (cx * 5.0, cz * 5.0)
  {
    var x, z, length;
    x, z, length, cx, cz := TurnedStick(w, i);
    StickLength(w, i, x, z, stick);
    LengthSquared(w, x, z, length);
    CappedLength(x, z, length, stick, cx, cz);
  }

  /** How fast: as far as the stick is pushed, up to the speed, however the camera is turned. */
  lemma SpeedFollowsStick(w: World, i: Input, stick: real, tx: real, tz: real)
    requires w.Lawful() && w.sin(i.yaw) * w.sin(i.yaw) + w.cos(i.yaw) * w.cos(i.yaw) == 1.0
    requires stick == i.moveForward * i.moveForward + i.moveRight * i.moveRight && (tx, tz) == Target(w, i)
    ensures tx * tx + tz * tz == (if i.sprint then 81.0 else 25.0) * (if stick > 1.0 then 1.0 else stick)
  {
    var cx, cz := WishLength(w, i, stick);
    TimesSpeed(cx, cz);
  }

  lemma TimesSpeed(x: real, z: real)
    ensures x * 9.0 * (x * 9.0) + z * 9.0 * (z * 9.0) == 81.0 * (x * x + z * z)
    ensures x * 5.0 * (x * 5.0) + z * 5.0 * (z * 5.0) == 25.0 * (x * x + z * z)
  {
  }

  /** Capping and scaling multiply the stick by a number. */
  lemma Scale(x: real, z: real, length: real, speed: real) returns (k: real)
    ensures var (cx, cz, _) := Capped(x, z, length); cx * speed == k * x && cz * speed == k * z
  {
    k := if length > 1.0 then speed / length else speed;
  }

  lemma TargetScale(w: World, i: Input, tx: real, tz: real) returns (k: real, x: real, z: real)
    requires (tx, tz) == Target(w, i)
    ensures (x, z) == Turned(w.sin(i.yaw), w.cos(i.yaw), i) && tx == k * x && tz == k * z
  {
    var length, cx, cz;
    x, z, length, cx, cz := TurnedStick(w, i);
    k := Scale(x, z, length, if i.sprint then 9.0 else 5.0);
  }

  /** So strafing goes at right angles to walking forward, at any speed and however capped. */
  lemma StrafeGoesAcross(w: World, forward: Input, strafe: Input, tx: real, tz: real, ux: real, uz: real)
    requires forward.yaw == strafe.yaw && forward.moveRight == 0.0 && strafe.moveForward == 0.0
    requires (tx, tz) == Target(w, forward) && (ux, uz) == Target(w, strafe)
    ensures tx * ux + tz * uz == 0.0
  {
    var k, x, z := TargetScale(w, forward, tx, tz);
    var l, u, v := TargetScale(w, strafe, ux, uz);
    StrafeIsAcross(w.sin(forward.yaw), w.cos(forward.yaw), forward, strafe);
    ScaledAcross(k, l, x, z, u, v, tx, tz, ux, uz);
  }

  /** Where the character is sent: forward along the camera's view, (sin, -cos) of the yaw,
      and to the right of it, (cos, sin), in the measure of the stick. */
  lemma TargetFollowsCamera(w: World, i: Input, s: real, c: real, tx: real, tz: real) returns (k: real)
    requires w.Lawful() && s == w.sin(i.yaw) && c == w.cos(i.yaw) && s * s + c * c == 1.0 && (tx, tz) == Target(w, i)
    ensures tx * s - tz * c == k * i.moveForward && tx * c + tz * s == k * i.moveRight && k > 0.0
    ensures i.moveForward * i.moveForward + i.moveRight * i.moveRight <= 1.0 ==> k == if i.sprint then 9.0 else 5.0
  {
    var x, z, length, cx, cz := TurnedStick(w, i);
    StickReach(w, i, x, z, length);
    k := PositiveScale(x, z, length, if i.sprint then 9.0 else 5.0);
    Projections(s, c, i.moveForward, i.moveRight, x, z, k, tx, tz);
  }

  /** A stick within its disc is not capped. */
  lemma StickReach(w: World, i: Input, x: real, z: real, length: real)
    requires w.Lawful() && (x, z) == Turned(w.sin(i.yaw), w.cos(i.yaw), i) && length == w.sqrt(x * x + z * z)
    requires w.sin(i.yaw) * w.sin(i.yaw) + w.cos(i.yaw) * w.cos(i.yaw) == 1.0
    ensures i.moveForward * i.moveForward + i.moveRight * i.moveRight <= 1.0 ==> length <= 1.0
  {
    LengthSquared(w, x, z, length);
    StickLength(w, i, x, z, i.moveForward * i.moveForward + i.moveRight * i.moveRight);
    if length > 1.0 { PositiveProduct(length - 1.0, length + 1.0); }
  }

  lemma PositiveScale(x: real, z: real, length: real, speed: real) returns (k: real)
    requires speed > 0.0
    ensures var (cx, cz, _) := Capped(x, z, length); cx * speed == k * x && cz * speed == k * z
    ensures k > 0.0 && (length <= 1.0 ==> k == speed)
  {
    k := if length > 1.0 then speed / length else speed;
  }

  lemma Projections(s: real, c: real, f: real, r: real, x: real, z: real, k: real, tx: real, tz: real)
    requires s * s + c * c == 1.0 && x == s * f + c * r && z == -c * f + s * r && tx == k * x && tz == k * z
    ensures tx * s - tz * c == k * f && tx * c + tz * s == k * r
  {
    assert x * s - z * c == f * (s * s + c * c);
    assert x * c + z * s == r * (s * s + c * c);
    assert tx * s - tz * c == k * (x * s - z * c) && tx * c + tz * s == k * (x * c + z * s);
  }

  lemma ScaledAcross(k: real, l: real, x: real, z: real, u: real, v: real, tx: real, tz: real, ux: real, uz: real)
    requires x * u + z * v == 0.0 && tx == k * x && tz == k * z && ux == l * u && uz == l * v
    ensures tx * ux + tz * uz == 0.0
  {
    assert tx * ux + tz * uz == k * l * (x * u + z * v);
  }

  lemma ScaledSpeed(x: real, z: real)
    requires WithinSpeed(x, z, 1.0)
    ensures WithinSpeed(x * 9.0, z * 9.0, 9.0) && WithinSpeed(x * 5.0, z * 5.0, 9.0) && WithinSpeed(x * 5.0, z * 5.0, 5.0)
  {
  }

  lemma SquaresAddUp(x: real, z: real)
    ensures x * x >= 0.0 && z * z >= 0.0
  {
  }

  /** Air control moves the velocity along a chord of the disc it lies in. */
  lemma BlendedSpeed(vx: real, vz: real, tx: real, tz: real)
    requires WithinSpeed(vx, vz, 9.0) && WithinSpeed(tx, tz, 9.0)
    ensures WithinSpeed(Blend(vx, tx), Blend(vz, tz), 9.0)
  {
    SquaresAddUp(vx - tx, vz - tz);
    var bx, bz := Blend(vx, tx), Blend(vz, tz);
    assert bx * bx == 0.65 * (vx * vx) + 0.35 * (tx * tx) - 0.2275 * ((vx - tx) * (vx - tx));
    assert bz * bz == 0.65 * (vz * vz) + 0.35 * (tz * tz) - 0.2275 * ((vz - tz) * (vz - tz));
  }

  ghost predicate Bounded(b: Body) {
    -50.0 <= b.velocity.y <= 7.5 && WithinSpeed(b.velocity.x, b.velocity.z, 9.0)
  }

  /** Never below the ground, and on it exactly when the flag says so. */
  ghost predicate Standing(w: World, b: Body) {
    var rest := w.RestY(b.position.x, b.position.z);
    b.position.y >= rest && (b.grounded <==> b.position.y == rest) && (b.grounded ==> b.velocity.y == 0.0)
  }

  lemma AcceleratedBounds(w: World, b: Body, i: Input)
    requires w.Lawful() && Bounded(b)
    ensures var v := Accelerated(w, b, i).0; -50.0 <= v.y <= 7.5 && WithinSpeed(v.x, v.z, 9.0)
  {
    TargetSpeed(w, i);
    var (tx, tz) := Target(w, i);
    BlendedSpeed(b.velocity.x, b.velocity.z, tx, tz);
  }

  /** After any tick, whatever the flag and the height were before it. */
  lemma StepInvariant(w: World, b: Body, i: Input)
    requires w.Lawful() && Bounded(b)
    ensures Bounded(Step(w, b, i)) && Standing(w, Step(w, b, i))
  {
    AcceleratedBounds(w, b, i);
  }

  lemma {:induction false} RunInvariant(w: World, b: Body, inputs: seq<Input>)
    requires w.Lawful() && Bounded(b) && inputs != []
    ensures Bounded(Run(w, b, inputs)) && Standing(w, Run(w, b, inputs))
    decreases |inputs|
  {
    StepInvariant(w, b, inputs[0]);
    if |inputs| > 1 {
      RunInvariant(w, Step(w, b, inputs[0]), inputs[1..]);
    }
  }

  /** The body turns only to the yaw of an input that moves it. */
  lemma FacingFollowsIntent(w: World, b: Body, i: Input)
    ensures Step(w, b, i).facingYaw == if Wish(w, i).2 > 0.0 then i.yaw else b.facingYaw
  {
  }

  /** What standing means, in metres: the centre of a capsule on the ground is 0.85 over it. */
  lemma RestsOnGround(w: World, b: Body, i: Input)
    ensures var a := Step(w, b, i); var ground := w.ground(a.position.x, a.position.z);
            a.position.y >= ground + 0.85 && (a.grounded <==> a.position.y == ground + 0.85)
  {
  }

  /** A stick that is pushed turns the body ... */
  lemma TurnsIfPushed(w: World, b: Body, i: Input)
    requires w.Lawful() && w.sin(i.yaw) * w.sin(i.yaw) + w.cos(i.yaw) * w.cos(i.yaw) == 1.0
    requires i.moveForward != 0.0 || i.moveRight != 0.0
    ensures Step(w, b, i).facingYaw == i.yaw
  {
    var x, z, length, cx, cz := TurnedStick(w, i);
    StickLength(w, i, x, z, i.moveForward * i.moveForward + i.moveRight * i.moveRight);
    LengthSquared(w, x, z, length);
    FacingFollowsIntent(w, b, i);
    if i.moveForward != 0.0 {
      Pushed(i.moveForward, i.moveRight, length, i.moveForward * i.moveForward, i.moveRight * i.moveRight);
    } else {
      Pushed(i.moveRight, i.moveForward, length, i.moveRight * i.moveRight, i.moveForward * i.moveForward);
    }
  }

  lemma Pushed(f: real, r: real, length: real, ff: real, rr: real)
    requires f != 0.0 && length >= 0.0 && ff == f * f && rr == r * r && length * length == ff + rr
    ensures length > 0.0
  {
    SameSign(f, f, ff);
    assert rr >= 0.0;
    if length == 0.0 { NothingTimes(length, length); }
  }

  lemma SameSign(x: real, y: real, product: real)
    requires x != 0.0 && y != 0.0 && (x > 0.0 <==> y > 0.0) && product == x * y
    ensures product > 0.0
  {
    if x > 0.0 { PositiveProduct(x, y); } else { NegativeProduct(x, y); }
  }

  lemma NegativeProduct(x: real, y: real)
    requires x < 0.0 && y < 0.0
    ensures x * y > 0.0
  {
  }

  lemma NothingTimes(x: real, y: real)
    requires x == 0.0
    ensures x * y == 0.0
  {
  }

  /** ... and one that is not does not. */
  lemma StillKeepsFacing(w: World, b: Body, i: Input)
    requires w.Lawful() && i.moveForward == 0.0 && i.moveRight == 0.0
    ensures Step(w, b, i).facingYaw == b.facingYaw
  {
    var s, c := w.sin(i.yaw), w.cos(i.yaw);
    assert s * 0.0 == 0.0 && c * 0.0 == 0.0 && -c * 0.0 == 0.0;
    var x, z, length, cx, cz := TurnedStick(w, i);
    LengthSquared(w, x, z, length);
    NoLength(length, length);
    FacingFollowsIntent(w, b, i);
  }

  lemma NoLength(r: real, s: real)
    requires r * s == 0.0
    ensures r <= 0.0 || s <= 0.0
  {
  }

  // ---------------------------------------------------------------- walking

  /** Slow enough that the ground falls away by at most the snap distance in a tick. */
  ghost predicate Gentle(w: World, i: Input) {
    var (tx, tz) := Target(w, i);
    !i.jump && WithinSpeed(tx, tz, 5.5)
  }

  /** Walking without a jump or a sprint is slow enough: on any terrain, in any direction. */
  lemma WalkIsGentle(w: World, i: Input)
    requires w.Lawful() && !i.jump && !i.sprint
    ensures Gentle(w, i)
  {
    TargetSpeed(w, i);
  }

  /** One tick from the ground, exactly: by where the target velocity takes the body. */
  lemma StaysGroundedIff(w: World, b: Body, i: Input)
    requires b.grounded && Standing(w, b)
    ensures var (tx, tz) := Target(w, i);
            var rest := w.RestY(b.position.x + tx / 60.0, b.position.z + tz / 60.0);
            Step(w, b, i).grounded <==> if i.jump then b.position.y + 0.125 <= rest else b.position.y - rest <= 0.15
  {
  }

  lemma GentleStepStaysGrounded(w: World, b: Body, i: Input)
    requires w.Lawful() && b.grounded && Standing(w, b) && Gentle(w, i)
    ensures Step(w, b, i).grounded
  {
    var (tx, tz) := Target(w, i);
    var p := b.position;
    assert Terrain.Near(p.x, p.z, p.x + tx / 60.0, p.z + tz / 60.0, 5.5 / 60.0) by { InATick(tx, tz); }
    assert Terrain.Gentle(w.ground, p.x, p.z, p.x + tx / 60.0, p.z + tz / 60.0, 1.6132, 5.5 / 60.0);
  }

  lemma InATick(tx: real, tz: real)
    requires WithinSpeed(tx, tz, 5.5)
    ensures tx / 60.0 * (tx / 60.0) + tz / 60.0 * (tz / 60.0) <= 5.5 / 60.0 * (5.5 / 60.0)
  {
    assert tx / 60.0 * (tx / 60.0) == tx * tx / 3600.0 && tz / 60.0 * (tz / 60.0) == tz * tz / 3600.0;
  }

  /** ... so the character is grounded again after every tick. */
  lemma {:induction false} GentleRunStaysGrounded(w: World, b: Body, inputs: seq<Input>)
    requires w.Lawful() && Bounded(b) && b.grounded && Standing(w, b)
    requires forall k :: 0 <= k < |inputs| ==> Gentle(w, inputs[k])
    ensures Run(w, b, inputs).grounded
    decreases |inputs|
  {
    if inputs != [] {
      GentleStepStaysGrounded(w, b, inputs[0]);
      StepInvariant(w, b, inputs[0]);
      GentleRunStaysGrounded(w, Step(w, b, inputs[0]), inputs[1..]);
    }
  }

  /** So walking never leaves the ground: whatever the terrain, the way and the turns. */
  lemma WalkStaysGrounded(w: World, b: Body, inputs: seq<Input>, k: nat)
    requires w.Lawful() && Bounded(b) && b.grounded && Standing(w, b) && k <= |inputs|
    requires forall j :: 0 <= j < |inputs| ==> !inputs[j].jump && !inputs[j].sprint
    ensures Run(w, b, inputs[..k]).grounded
  {
    forall j | 0 <= j < k ensures Gentle(w, inputs[..k][j]) { WalkIsGentle(w, inputs[j]); }
    GentleRunStaysGrounded(w, b, inputs[..k]);
  }

  // ----------------------------------------------------------------- flight

  ghost predicate Airborne(w: World, b: Body, inputs: seq<Input>)
    decreases |inputs|
  {
    !b.grounded && (inputs != [] ==> Airborne(w, Step(w, b, inputs[0]), inputs[1..]))
  }

  /** Sixty times the height gained since a jump, at vertical speed v on the way up. */
  ghost function Climbed(v: real): real { (23.5 - 3.0 * v) * (3.75 + 0.5 * v) }

  lemma ClimbedAtMost(v: real)
    ensures Climbed(v) <= 529.0 / 6.0
  {
  }

  /** Where a body can be that left the ground at height y0. */
  ghost predicate InJump(b: Body, y0: real) {
    !b.grounded && 60.0 * (b.position.y - y0) <= if b.velocity.y >= 0.0 then Climbed(b.velocity.y) else 529.0 / 6.0
  }

  lemma JumpBegins(w: World, b: Body, i: Input)
    requires b.grounded && i.jump && !Step(w, b, i).grounded
    ensures InJump(Step(w, b, i), b.position.y)
  {
  }

  lemma JumpContinues(w: World, b: Body, i: Input, y0: real)
    requires InJump(b, y0) && !Step(w, b, i).grounded
    ensures InJump(Step(w, b, i), y0)
  {
  }

  /** In one flight after a jump no tick is more than 529/360 m above the take-off. */
  lemma {:induction false} FlightHeight(w: World, b: Body, inputs: seq<Input>, y0: real)
    requires InJump(b, y0) && Airborne(w, b, inputs)
    ensures Run(w, b, inputs).position.y <= y0 + 529.0 / 360.0
    decreases |inputs|
  {
    if inputs == [] {
      ClimbedAtMost(b.velocity.y);
    } else {
      JumpContinues(w, b, inputs[0], y0);
      FlightHeight(w, Step(w, b, inputs[0]), inputs[1..], y0);
    }
  }

  lemma JumpHeight(w: World, b: Body, jump: Input, inputs: seq<Input>)
    requires b.grounded && jump.jump && Airborne(w, Step(w, b, jump), inputs)
    ensures Run(w, Step(w, b, jump), inputs).position.y <= b.position.y + 529.0 / 360.0
  {
    JumpBegins(w, b, jump);
    FlightHeight(w, Step(w, b, jump), inputs, b.position.y);
  }

  /** In the air: the vertical speed n ticks on, while terminal speed is not reached. */
  ghost function Fallen(v: real, n: nat): real { v - n as real / 3.0 }

  /** The first tick of a flight, and the rest of it. */
  lemma AirTick(w: World, b: Body, inputs: seq<Input>) returns (a: Body, rest: seq<Input>)
    requires inputs != [] && Airborne(w, b, inputs)
    ensures rest == inputs[1..] && Airborne(w, a, rest) && Run(w, b, inputs) == Run(w, a, rest)
    ensures b.velocity.y - 1.0 / 3.0 >= -50.0 ==>
              a.velocity.y == b.velocity.y - 1.0 / 3.0 && a.position.y == b.position.y + (b.velocity.y - 1.0 / 3.0) / 60.0
  {
    a, rest := Step(w, b, inputs[0]), inputs[1..];
  }

  /** A flight is a parabola: after n ticks in the air, n more thirds of a metre a second
      downwards, and the sum of the speeds in height. */
  lemma {:induction false} FlightIsParabola(w: World, b: Body, inputs: seq<Input>)
    requires Airborne(w, b, inputs) && Fallen(b.velocity.y, |inputs|) >= -50.0
    ensures var a, n := Run(w, b, inputs), |inputs| as real;
            && a.velocity.y == b.velocity.y - n / 3.0
            && a.position.y == b.position.y + (n * b.velocity.y - n * (n + 1.0) / 6.0) / 60.0
    decreases |inputs|
  {
    if inputs != [] {
      var a, rest := AirTick(w, b, inputs);
      FlightIsParabola(w, a, rest);
      ParabolaNext(b.velocity.y, |rest| as real);
    }
  }

  lemma ParabolaNext(v: real, m: real)
    ensures v - 1.0 / 3.0 + (m * (v - 1.0 / 3.0) - m * (m + 1.0) / 6.0)
         == (m + 1.0) * v - (m + 1.0) * (m + 2.0) / 6.0
  {
  }

  /** A jump leaves the ground at 7.5 m/s and from its first tick in the air is a parabola. */
  lemma JumpIsParabola(w: World, b: Body, jump: Input, inputs: seq<Input>)
    requires b.grounded && jump.jump && Airborne(w, Step(w, b, jump), inputs) && |inputs| <= 172
    ensures var a, n := Run(w, Step(w, b, jump), inputs), |inputs| as real;
            && a.velocity.y == 7.5 - n / 3.0
            && a.position.y == b.position.y + 0.125 + (n * 7.5 - n * (n + 1.0) / 6.0) / 60.0
  {
    FlightIsParabola(w, Step(w, b, jump), inputs);
  }

  ghost function Power(r: real, n: nat): real { if n == 0 then 1.0 else r * Power(r, n - 1) }

  /** n ticks leave so much of a distance d. */
  ghost predicate Closes(d: real, n: nat, left: real) { left == Power(0.65, n) * d }

  /** In the air the horizontal velocity closes in on the target, by 35 % in each tick. */
  lemma {:induction false} AirControlCloses(w: World, b: Body, i: Input, inputs: seq<Input>, tx: real, tz: real)
    returns (v: Vec3)
    requires (forall k :: 0 <= k < |inputs| ==> inputs[k] == i) && Airborne(w, b, inputs) && (tx, tz) == Target(w, i)
    ensures v == Run(w, b, inputs).velocity
    ensures Closes(b.velocity.x - tx, |inputs|, v.x - tx) && Closes(b.velocity.z - tz, |inputs|, v.z - tz)
    decreases |inputs|
  {
    if inputs == [] {
      v := b.velocity;
    } else {
      var a, rest := BlendTick(w, b, i, inputs, tx, tz);
      v := AirControlCloses(w, a, i, rest, tx, tz);
      ClosesNext(|inputs|, b.velocity.x - tx, a.velocity.x - tx, v.x - tx);
      ClosesNext(|inputs|, b.velocity.z - tz, a.velocity.z - tz, v.z - tz);
    }
  }

  lemma BlendTick(w: World, b: Body, i: Input, inputs: seq<Input>, tx: real, tz: real) returns (a: Body, rest: seq<Input>)
    requires inputs != [] && inputs[0] == i && Airborne(w, b, inputs) && (tx, tz) == Target(w, i)
    ensures rest == inputs[1..] && Airborne(w, a, rest) && Run(w, b, inputs) == Run(w, a, rest)
    ensures a.velocity.x - tx == 0.65 * (b.velocity.x - tx) && a.velocity.z - tz == 0.65 * (b.velocity.z - tz)
  {
    a, rest := Step(w, b, inputs[0]), inputs[1..];
  }

  lemma ClosesNext(n: nat, d: real, e: real, left: real)
    requires n > 0 && e == 0.65 * d && Closes(e, n - 1, left)
    ensures Closes(d, n, left)
  {
  }

  /** What rising speed adds to the ticks a fall takes. */
  ghost function Momentum(v: real): real {
    if v >= -1.0 then 1.5 * (v * v) + 2.5 * v + 1.0 else 0.0
  }

  /** A bound on the ticks until an airborne body lands, from its height above the
      lowest possible ground and its vertical speed. */
  ghost function TicksToLand(b: Body): real {
    60.0 * (b.position.y + 54.15) + Momentum(b.velocity.y) + 1.0
  }

  lemma MomentumBounds(v: real)
    requires -50.0 <= v <= 7.5
    ensures -1.0 < Momentum(v) <= 105.0
    ensures var v' := if v - 20.0 / 60.0 < -50.0 then -50.0 else v - 20.0 / 60.0; v' + Momentum(v') <= Momentum(v) - 1.0
  {
    SquaresAddUp(v + 5.0 / 6.0, v);
    assert v >= -1.0 ==> Momentum(v) == 1.5 * ((v + 5.0 / 6.0) * (v + 5.0 / 6.0)) - 1.0 / 24.0;
    var u := v - 20.0 / 60.0;
    assert u * u == v * v - 2.0 / 3.0 * v + 1.0 / 9.0;
    if v >= -1.0 {
      Product(7.5 - v, 7.5 + v + 1.0);
      if u < -1.0 {
        Product(-2.0 / 3.0 - v, -1.0 / 3.0 - v);
        assert (-2.0 / 3.0 - v) * (-1.0 / 3.0 - v) == v * v + v + 2.0 / 9.0;
      }
    }
  }

  lemma FlightTickSpends(w: World, b: Body, i: Input)
    requires !b.grounded && Bounded(b) && !Step(w, b, i).grounded
    ensures TicksToLand(Step(w, b, i)) <= TicksToLand(b) - 1.0
  {
    MomentumBounds(b.velocity.y);
  }

  lemma StillTicksLeft(w: World, b: Body)
    requires w.Lawful() && Bounded(b) && Standing(w, b)
    ensures TicksToLand(b) > 0.0
  {
    MomentumBounds(b.velocity.y);
  }

  /** Every airborne body lands, and within TicksToLand ticks, whatever the inputs. */
  lemma {:induction false} Lands(w: World, b: Body, inputs: seq<Input>) returns (k: nat)
    requires w.Lawful() && !b.grounded && Bounded(b) && Standing(w, b)
    requires |inputs| as real >= TicksToLand(b)
    ensures 0 < k <= |inputs| && Run(w, b, inputs[..k]).grounded
    decreases |inputs|
  {
    StillTicksLeft(w, b);
    var b' := Step(w, b, inputs[0]);
    StepInvariant(w, b, inputs[0]);
    if b'.grounded {
      k := 1;
      assert inputs[..1][1..] == [];
    } else {
      FlightTickSpends(w, b, inputs[0]);
      k := Lands(w, b', inputs[1..]);
      k := k + 1;
      assert inputs[..k][1..] == inputs[1..][..k - 1];
    }
  }
}

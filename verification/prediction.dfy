/** Client-side prediction with rollback (`game::Prediction`). */
module Prediction {
  import opened Character

  const MAX_PENDING := 256

  /** The part of a replicated entity that reconciling uses. Whether the character
      stands on the ground is not in it. */
  datatype Authority = Authority(position: Vec3, velocity: Vec3, lastInputSequence: nat)

  /** The predictor's fields. */
  datatype State = State(body: Body, active: bool, pending: seq<Input>, next: nat, offset: Vec3,
                         rollbacks: nat, lastCorrection: real)

  function Zero(): Vec3 { Vec3(0.0, 0.0, 0.0) }

  function Plus(a: Vec3, b: Vec3): Vec3 { Vec3(a.x + b.x, a.y + b.y, a.z + b.z) }

  function Minus(a: Vec3, b: Vec3): Vec3 { Vec3(a.x - b.x, a.y - b.y, a.z - b.z) }

  function Distance(w: World, a: Vec3, b: Vec3): real { w.norm(Minus(a, b)) }

  // ------------------------------------------------------- what the calls do

  ghost function Initial(spawn: Vec3): State {
    State(Body(spawn, Zero(), false, 0.0), true, [], 1, Zero(), 0, 0.0)
  }

  /** The newest MAX_PENDING of the inputs. */
  ghost function Newest(inputs: seq<Input>): seq<Input> {
    if |inputs| > MAX_PENDING then inputs[|inputs| - MAX_PENDING..] else inputs
  }

  ghost function Predicted(w: World, p: State, i: Input): State {
    if !p.active then p.(next := p.next + 1)
    else p.(next := p.next + 1, body := Step(w, p.body, i), pending := Newest(p.pending + [i]))
  }

  /** What is left once every leading input up to `acked` has been dropped. */
  ghost function Unacknowledged(pending: seq<Input>, acked: nat): seq<Input> {
    if pending != [] && pending[0].sequence <= acked then Unacknowledged(pending[1..], acked) else pending
  }

  ghost function Rewound(b: Body, a: Authority): Body { b.(position := a.position, velocity := a.velocity) }

  ghost function Replayed(w: World, p: State, a: Authority): Body {
    Run(w, Rewound(p.body, a), Unacknowledged(p.pending, a.lastInputSequence))
  }

  /** How far the correction moves the character. */
  ghost function Correction(w: World, p: State, a: Authority): real {
    Distance(w, p.body.position, Replayed(w, p, a).position)
  }

  ghost function Reconciled(w: World, p: State, a: Authority): State {
    if !p.active then p
    else
      var after, error := Replayed(w, p, a), Correction(w, p, a);
      var q := p.(body := after, pending := Unacknowledged(p.pending, a.lastInputSequence), lastCorrection := error);
      if error <= 0.02 then q
      else q.(rollbacks := p.rollbacks + 1,
              offset := if error > 2.0 then Zero()
                        else Plus(p.offset, Minus(p.body.position, after.position)))
  }

  /** `exp2` is the library's power of two; the half-life is 0.08 s. */
  ghost function Smoothed(exp2: real -> real, p: State, seconds: real): State {
    var decay := exp2(-seconds / 0.08);
    p.(offset := Vec3(p.offset.x * decay, p.offset.y * decay, p.offset.z * decay))
  }

  ghost function Rendered(p: State): Vec3 {
    if p.active then Plus(p.body.position, p.offset) else Zero()
  }

  // ------------------------------------------------------------- in place

  class Prediction {
    const character: Character
    var active: bool
    var pending: seq<Input>
    var nextSequence: nat
    var smoothingOffset: Vec3
    var rollbacks: nat
    var lastCorrection: real

    constructor ()
      ensures fresh(character) && !active && pending == []
    {
      character := new Character(Zero());
      active := false;
      pending := [];
      nextSequence := 1;
      smoothingOffset := Zero();
      rollbacks := 0;
      lastCorrection := 0.0;
    }

    ghost function Now(): State
      reads this, character
    {
      State(character.Now(), active, pending, nextSequence, smoothingOffset, rollbacks, lastCorrection)
    }

    method Init(spawnPosition: Vec3)
      modifies this, character
      ensures Now() == Initial(spawnPosition)
    {
      Shutdown();
      character.position := spawnPosition;
      pending := [];
      nextSequence := 1;
      smoothingOffset := Zero();
      rollbacks := 0;
      lastCorrection := 0.0;
      active := true;
    }

    method Shutdown()
      modifies this, character
      ensures Now() == old(Now()).(body := Body(Zero(), Zero(), false, 0.0), pending := [], active := false)
    {
      character.position := Zero();
      character.velocity := Zero();
      character.grounded := false;
      character.facingYaw := 0.0;
      pending := [];
      active := false;
    }

    method Step(w: World, moveForward: real, moveRight: real, yaw: real, jump: bool, sprint: bool) returns (input: Input)
      modifies this, character
      ensures input == Input(old(nextSequence), moveForward, moveRight, yaw, jump, sprint)
      ensures Now() == Predicted(w, old(Now()), input)
    {
      input := Input(nextSequence, moveForward, moveRight, yaw, jump, sprint);
      nextSequence := nextSequence + 1;
      if !active { return; }
      StepCharacter(w, character, input);
      pending := pending + [input];
      ghost var all := pending;
      while |pending| > MAX_PENDING
        invariant Newest(pending) == Newest(all)
        invariant Now() == Predicted(w, old(Now()), input).(pending := pending)
      {
        pending := pending[1..];
      }
    }

    method Reconcile(w: World, authoritative: Authority)
      modifies this, character
      ensures Now() == Reconciled(w, old(Now()), authoritative)
    {
      if !active { return; }
      var acked := authoritative.lastInputSequence;
      ghost var before := Now();
      while pending != [] && pending[0].sequence <= acked
        invariant Unacknowledged(pending, acked) == Unacknowledged(before.pending, acked)
        invariant Now() == before.(pending := pending)
        decreases |pending|
      {
        pending := pending[1..];
      }
      var predictedBefore := character.position;
      character.position := authoritative.position;
      character.velocity := authoritative.velocity;
      var k := 0;
      assert pending[0..] == pending;
      while k < |pending|
        invariant k <= |pending|
        invariant Run(w, character.Now(), pending[k..]) == Replayed(w, before, authoritative)
        invariant Now() == before.(pending := Unacknowledged(before.pending, acked), body := character.Now())
      {
        assert pending[k..][1..] == pending[k + 1..];
        StepCharacter(w, character, pending[k]);
        k := k + 1;
      }
      var predictedAfter := character.position;
      var error := Distance(w, predictedBefore, predictedAfter);
      lastCorrection := error;
      if error <= 0.02 { return; }
      rollbacks := rollbacks + 1;
      if error > 2.0 {
        smoothingOffset := Zero();
        return;
      }
      smoothingOffset := Plus(smoothingOffset, Minus(predictedBefore, predictedAfter));
    }

    method UpdateSmoothing(exp2: real -> real, deltaSeconds: real)
      modifies this
      ensures Now() == Smoothed(exp2, old(Now()), deltaSeconds)
    {
      var decay := exp2(-deltaSeconds / 0.08);
      smoothingOffset := Vec3(smoothingOffset.x * decay, smoothingOffset.y * decay, smoothingOffset.z * decay);
    }

    /** Where the character is drawn. */
    function RenderPosition(): Vec3
      reads this, character
    {
      if active then Plus(character.position, smoothingOffset) else Zero()
    }
  }
}

/** What it costs that reconciling rewinds position and velocity but not the ground flag:
    exactly when the replay still comes out right, and a right prediction it undoes. */
module GroundFlag {
  import opened Common
  import opened Character
  import opened Prediction
  import opened PredictionTheorems

  /** Where a body moving at its target velocity would touch the ground this tick: in a jump
      off it, or falling at the speed it has. */
  ghost predicate Touches(w: World, b: Body, i: Input) {
    var (tx, tz) := Target(w, i);
    var rest := w.RestY(b.position.x + tx / 60.0, b.position.z + tz / 60.0);
    var y := b.position.y + (if i.jump then 0.125 else b.velocity.y / 60.0);
    y <= rest || (!i.jump && b.velocity.y <= 0.0 && y - rest <= 0.15)
  }

  /** A tick on input i comes out of b the same with the wrong flag: the body already moves
      the way the input asks for, and it touches the ground, or is in the air, does not jump
      and falls at terminal speed. */
  ghost predicate Harmless(w: World, b: Body, i: Input) {
    var (tx, tz) := Target(w, i);
    && b.velocity.x == tx && b.velocity.z == tz
    && (Touches(w, b, i) || (!b.grounded && !i.jump && b.velocity.y == -50.0))
  }

  /** Standing, and taken to be in the air. */
  lemma MissedGround(w: World, b: Body, i: Input)
    requires Standing(w, b) && b.grounded
    ensures SameMotion(Step(w, b.(grounded := false), i), Step(w, b, i)) <==> Harmless(w, b, i)
  {
    var (tx, tz) := Target(w, i);
    var v := Accelerated(w, b.(grounded := false), i).0;
    assert v.x == tx <==> b.velocity.x == tx;
    assert v.z == tz <==> b.velocity.z == tz;
  }

  /** In the air, and taken to stand. */
  lemma FalseGround(w: World, b: Body, i: Input)
    requires Bounded(b) && !b.grounded
    ensures SameMotion(Step(w, b.(grounded := true), i), Step(w, b, i)) <==> Harmless(w, b, i)
  {
    var (tx, tz) := Target(w, i);
    var v := Accelerated(w, b, i).0;
    assert v.x == tx <==> b.velocity.x == tx;
    assert v.z == tz <==> b.velocity.z == tz;
  }

  /** One tick with the wrong flag, from any state a tick can leave. */
  lemma WrongFlag(w: World, b: Body, i: Input)
    requires Bounded(b) && Standing(w, b)
    ensures SameMotion(Step(w, b.(grounded := !b.grounded), i), Step(w, b, i)) <==> Harmless(w, b, i)
  {
    if b.grounded { MissedGround(w, b, i); } else { FalseGround(w, b, i); }
  }

  /** The two move alike after every input. */
  ghost predicate RightAllAlong(w: World, b: Body, server: Body, inputs: seq<Input>) {
    forall n :: 1 <= n <= |inputs| ==> SameMotion(Run(w, b, inputs[..n]), Run(w, server, inputs[..n]))
  }

  /** A replay is right all the way if and only if the flag is, or it does no harm to the
      first input. */
  lemma ReplayIsRight(w: World, b: Body, server: Body, inputs: seq<Input>)
    requires Bounded(server) && Standing(w, server) && inputs != []
    requires b.position == server.position && b.velocity == server.velocity
    ensures RightAllAlong(w, b, server, inputs) <==> b.grounded == server.grounded || Harmless(w, server, inputs[0])
  {
    var guess := server.(grounded := b.grounded);
    RunSameMotion(w, b, guess, inputs[..1]);
    RunOne(w, guess, inputs);
    RunOne(w, server, inputs);
    if b.grounded != server.grounded { WrongFlag(w, server, inputs[0]); }
    if b.grounded == server.grounded || Harmless(w, server, inputs[0]) {
      forall n | 1 <= n <= |inputs| ensures SameMotion(Run(w, b, inputs[..n]), Run(w, server, inputs[..n])) {
        RunSameMotion(w, b, guess, inputs[..n]);
        RunSameMotion(w, Step(w, guess, inputs[0]), Step(w, server, inputs[0]), inputs[..n][1..]);
      }
    }
  }

  lemma RunOne(w: World, b: Body, inputs: seq<Input>)
    requires inputs != []
    ensures Run(w, b, inputs[..1]) == Step(w, b, inputs[0])
  {
    assert inputs[..1][1..] == [];
  }

  /** With one input pending: reconciling comes out where the server will be if and only if
      the flag agrees or does no harm. */
  lemma OnePendingFlagDecides(w: World, p: State, a: Authority, server: Body, i: Input)
    requires p.active && Describes(a, server) && Bounded(server) && Standing(w, server)
    requires Unacknowledged(p.pending, a.lastInputSequence) == [i]
    ensures SameMotion(Reconciled(w, p, a).body, Step(w, server, i))
       <==> p.body.grounded == server.grounded || Harmless(w, server, i)
  {
    ReplayIsRight(w, Rewound(p.body, a), server, [i]);
    assert [i][..1] == [i];
    RunOne(w, server, [i]);
  }

  /** With any inputs pending: enough, and needed for the replay to be right all along. */
  lemma PendingFlagDecides(w: World, p: State, a: Authority, server: Body, inputs: seq<Input>)
    requires p.active && Describes(a, server) && Bounded(server) && Standing(w, server)
    requires inputs == Unacknowledged(p.pending, a.lastInputSequence) && inputs != []
    ensures RightAllAlong(w, Rewound(p.body, a), server, inputs)
       <==> p.body.grounded == server.grounded || Harmless(w, server, inputs[0])
    ensures p.body.grounded == server.grounded || Harmless(w, server, inputs[0])
        ==> SameMotion(Reconciled(w, p, a).body, Run(w, server, inputs))
  {
    ReplayIsRight(w, Rewound(p.body, a), server, inputs);
    assert inputs[..|inputs|] == inputs;
  }

  // -------------------------------------------------------- a right jump undone

  lemma TurnedNothing(s: real, c: real, i: Input)
    requires i.moveForward == 0.0 && i.moveRight == 0.0
    ensures Turned(s, c, i) == (0.0, 0.0)
  {
    assert s * 0.0 == 0.0 && c * 0.0 == 0.0 && -c * 0.0 == 0.0;
  }

  lemma NoIntentNoTarget(w: World, i: Input)
    requires i.moveForward == 0.0 && i.moveRight == 0.0
    ensures Target(w, i) == (0.0, 0.0)
  {
    TurnedNothing(w.sin(i.yaw), w.cos(i.yaw), i);
  }

  /** On any ground a tick without intent leaves a body at rest height standing there. */
  lemma StandsStill(w: World, b: Body, still: Input)
    requires still.moveForward == 0.0 && still.moveRight == 0.0 && !still.jump
    requires b.position.y == w.RestY(b.position.x, b.position.z) && b.velocity == Zero()
    ensures SameMotion(Step(w, b, still), Body(b.position, Zero(), true, 0.0))
  {
    NoIntentNoTarget(w, still);
  }

  lemma JumpsFrom(w: World, b: Body, jump: Input)
    requires jump.moveForward == 0.0 && jump.moveRight == 0.0 && jump.jump
    requires b.position.y == w.RestY(b.position.x, b.position.z) && b.velocity == Zero()
    ensures b.grounded ==>
              SameMotion(Step(w, b, jump),
                         Body(b.position.(y := b.position.y + 0.125), Vec3(0.0, 7.5, 0.0), false, 0.0))
    ensures !b.grounded ==> SameMotion(Step(w, b, jump), Body(b.position, Zero(), true, 0.0))
  {
    NoIntentNoTarget(w, jump);
  }

  /** The state of a client that has started at `spawn`, stood for a tick and jumped. */
  ghost function Jumping(w: World, spawn: Vec3, still: Input, jump: Input): State {
    Predicted(w, Predicted(w, Initial(spawn), still), jump)
  }

  /** A still tick and a jump, numbered from the start of the prediction. */
  ghost predicate StandThenJump(still: Input, jump: Input) {
    && still.moveForward == 0.0 && still.moveRight == 0.0 && !still.jump && still.sequence == 1
    && jump.moveForward == 0.0 && jump.moveRight == 0.0 && jump.jump && jump.sequence == 2
  }

  /** Where the server's character is after the still tick. */
  ghost function Stood(w: World, spawn: Vec3, still: Input): Body { Step(w, Body(spawn, Zero(), false, 0.0), still) }

  lemma Listed(first: Input, second: Input)
    ensures [] + [first] == [first] && [first] + [second] == [first, second]
  {
  }

  lemma JumpingConsistent(w: World, spawn: Vec3, still: Input, jump: Input)
    requires still.sequence == 1 && jump.sequence == 2
    ensures Consistent(w, Jumping(w, spawn, still, jump), [still, jump])
  {
    Listed(still, jump);
    InitConsistent(w, spawn);
    PredictConsistent(w, Initial(spawn), still, []);
    PredictConsistent(w, Predicted(w, Initial(spawn), still), jump, [still]);
  }

  lemma JumpingBody(w: World, spawn: Vec3, still: Input, jump: Input)
    ensures var p := Jumping(w, spawn, still, jump);
            p.active && p.pending == [still, jump] && p.rollbacks == 0 && p.body == Step(w, Stood(w, spawn, still), jump)
  {
    Listed(still, jump);
  }

  lemma Jumped(w: World, spawn: Vec3, still: Input, jump: Input)
    requires StandThenJump(still, jump) && spawn.y == w.RestY(spawn.x, spawn.z)
    ensures SameMotion(Stood(w, spawn, still), Body(spawn, Zero(), true, 0.0))
    ensures SameMotion(Step(w, Stood(w, spawn, still), jump),
                       Body(spawn.(y := spawn.y + 0.125), Vec3(0.0, 7.5, 0.0), false, 0.0))
  {
    StandsStill(w, Body(spawn, Zero(), false, 0.0), still);
    JumpsFrom(w, Stood(w, spawn, still), jump);
  }

  /** What the server tells of its character after the still tick. */
  ghost function Told(w: World, spawn: Vec3, still: Input): Authority {
    var server := Stood(w, spawn, still);
    Authority(server.position, server.velocity, 1)
  }

  /** On every ground: the client stands for a tick and jumps, and both are right; then the
      server's state after the first arrives, and the jump is undone: in the air by now,
      the client replays it as one it cannot make. */
  lemma RightJumpIsUndone(w: World, spawn: Vec3, still: Input, jump: Input)
    requires StandThenJump(still, jump) && spawn.y == w.RestY(spawn.x, spawn.z)
    ensures var p := Jumping(w, spawn, still, jump);
            && Consistent(w, p, [still, jump]) && SameMotion(p.body, Step(w, Stood(w, spawn, still), jump))
            && p.body.position.y == spawn.y + 0.125
            && Reconciled(w, p, Told(w, spawn, still)).body.position.y == spawn.y
  {
    JumpingConsistent(w, spawn, still, jump);
    JumpingBody(w, spawn, still, jump);
    Jumped(w, spawn, still, jump);
    JumpReplayed(w, Jumping(w, spawn, still, jump), Told(w, spawn, still), still, jump);
  }

  lemma JumpReplayed(w: World, p: State, a: Authority, still: Input, jump: Input)
    requires p.active && p.pending == [still, jump] && !p.body.grounded && a.lastInputSequence == 1
    requires still.sequence == 1 && jump.sequence == 2
    requires jump.moveForward == 0.0 && jump.moveRight == 0.0 && jump.jump
    requires a.velocity == Zero() && a.position.y == w.RestY(a.position.x, a.position.z)
    ensures Reconciled(w, p, a).body.position == a.position
  {
    assert [still, jump][1..] == [jump];
    assert Unacknowledged([jump], 1) == [jump];
    assert Unacknowledged(p.pending, 1) == [jump];
    RunOne(w, Rewound(p.body, a), [jump]);
    assert [jump][..1] == [jump];
    JumpsFrom(w, Rewound(p.body, a), jump);
  }

  lemma WorthCorrecting(w: World, d: Vec3)
    requires w.Lawful() && d == Vec3(0.0, 0.125, 0.0)
    ensures w.norm(d) > 0.02
  {
    var n := w.norm(d);
    assert w.NormOf(d) && n * n == 0.015625;
    if n <= 0.02 { SquaresInOrder(n, 0.02); }
  }

  /** ... and it counts as a rollback. */
  lemma UndoneJumpIsRollback(w: World, spawn: Vec3, still: Input, jump: Input)
    requires w.Lawful() && StandThenJump(still, jump) && spawn.y == w.RestY(spawn.x, spawn.z)
    ensures Reconciled(w, Jumping(w, spawn, still, jump), Told(w, spawn, still)).rollbacks == 1
  {
    var p, a := Jumping(w, spawn, still, jump), Told(w, spawn, still);
    JumpingBody(w, spawn, still, jump);
    Jumped(w, spawn, still, jump);
    JumpReplayed(w, p, a, still, jump);
    WorthCorrecting(w, Minus(p.body.position, Replayed(w, p, a).position));
  }
}

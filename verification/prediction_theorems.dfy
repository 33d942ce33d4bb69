/** What prediction and rollback promise: the replay reproduces the server, a
    correct guess stays, the body never turns and the picture never jumps. */
module PredictionTheorems {
  import opened Common
  import opened Character
  import opened Prediction

  // --------------------------------------------------------------- history

  /** `applied` are the inputs stepped since `init`, in order; the pending ones are
      the last of them, and the body faces where they turned it. */
  ghost predicate Consistent(w: World, p: State, applied: seq<Input>) {
    && p.active && p.next == |applied| + 1 && |p.pending| <= 256 && |p.pending| <= |applied|
    && p.pending == applied[|applied| - |p.pending|..]
    && (forall k :: 0 <= k < |applied| ==> applied[k].sequence == k + 1)
    && p.body.facingYaw == FacingAfter(w, 0.0, applied)
  }

  /** A prediction starts standing still where it is told to. */
  lemma InitConsistent(w: World, spawn: Vec3)
    ensures Consistent(w, Initial(spawn), [])
    ensures Rendered(Initial(spawn)) == Initial(spawn).body.position == spawn && Initial(spawn).body.velocity == Zero()
  {
  }

  /** Dropping what is acknowledged keeps exactly the later inputs. */
  lemma {:induction false} UnacknowledgedAreLater(pending: seq<Input>, first: nat, acked: nat)
    requires forall k :: 0 <= k < |pending| ==> pending[k].sequence == first + k
    ensures var d := Min(Max(acked + 1 - first, 0), |pending|); Unacknowledged(pending, acked) == pending[d..]
    decreases |pending|
  {
    if pending != [] && first <= acked {
      UnacknowledgedAreLater(pending[1..], first + 1, acked);
    }
  }

  /** With the sequence numbers of a consistent state: the inputs after the
      acknowledged one, unless the history has been cut off further on. */
  lemma PendingAfter(w: World, p: State, applied: seq<Input>, acked: nat)
    requires Consistent(w, p, applied)
    ensures var n := |applied|; var d := Max(Min(acked, n), n - |p.pending|);
            Unacknowledged(p.pending, acked) == applied[d..]
  {
    UnacknowledgedAreLater(p.pending, |applied| - |p.pending| + 1, acked);
  }

  // ----------------------------------------------------------------- facing

  ghost function FacingAfter(w: World, yaw: real, inputs: seq<Input>): real
    decreases |inputs|
  {
    if inputs == [] then yaw
    else FacingAfter(w, if Wish(w, inputs[0]).2 > 0.0 then inputs[0].yaw else yaw, inputs[1..])
  }

  lemma {:induction false} RunFacing(w: World, b: Body, inputs: seq<Input>)
    ensures Run(w, b, inputs).facingYaw == FacingAfter(w, b.facingYaw, inputs)
    decreases |inputs|
  {
    if inputs != [] { RunFacing(w, Step(w, b, inputs[0]), inputs[1..]); }
  }

  /** Some input moves the body, and then the facing before does not matter; or none
      does, and then it stays. */
  lemma {:induction false} FacingForgets(w: World, yaw: real, other: real, inputs: seq<Input>)
    ensures FacingAfter(w, yaw, inputs) == FacingAfter(w, other, inputs)
            || (FacingAfter(w, yaw, inputs) == yaw && FacingAfter(w, other, inputs) == other)
    decreases |inputs|
  {
    if inputs != [] && !(Wish(w, inputs[0]).2 > 0.0) { FacingForgets(w, yaw, other, inputs[1..]); }
  }

  lemma {:induction false} FacingSplits(w: World, yaw: real, inputs: seq<Input>, d: nat)
    requires d <= |inputs|
    ensures FacingAfter(w, yaw, inputs) == FacingAfter(w, FacingAfter(w, yaw, inputs[..d]), inputs[d..])
    decreases d
  {
    if d > 0 {
      FacingSplits(w, if Wish(w, inputs[0]).2 > 0.0 then inputs[0].yaw else yaw, inputs[1..], d - 1);
      assert inputs[..d][1..] == inputs[1..][..d - 1] && inputs[1..][d - 1..] == inputs[d..];
    }
  }

  /** Replaying a suffix of what turned the body leaves it facing the same way. */
  lemma ReplayKeepsFacing(w: World, applied: seq<Input>, d: nat)
    requires d <= |applied|
    ensures FacingAfter(w, FacingAfter(w, 0.0, applied), applied[d..]) == FacingAfter(w, 0.0, applied)
  {
    FacingSplits(w, 0.0, applied, d);
    FacingForgets(w, FacingAfter(w, 0.0, applied[..d]), FacingAfter(w, 0.0, applied), applied[d..]);
  }

  lemma ReconcileKeepsFacing(w: World, p: State, a: Authority, applied: seq<Input>)
    requires Consistent(w, p, applied)
    ensures Reconciled(w, p, a).body.facingYaw == p.body.facingYaw
  {
    var n := |applied|;
    PendingAfter(w, p, applied, a.lastInputSequence);
    RunFacing(w, Rewound(p.body, a), Unacknowledged(p.pending, a.lastInputSequence));
    ReplayKeepsFacing(w, applied, Max(Min(a.lastInputSequence, n), n - |p.pending|));
  }

  lemma ReconcileConsistent(w: World, p: State, a: Authority, applied: seq<Input>)
    requires Consistent(w, p, applied)
    ensures Consistent(w, Reconciled(w, p, a), applied)
  {
    PendingAfter(w, p, applied, a.lastInputSequence);
    ReconcileKeepsFacing(w, p, a, applied);
  }

  lemma {:induction false} FacingSnoc(w: World, yaw: real, inputs: seq<Input>, i: Input)
    ensures FacingAfter(w, yaw, inputs + [i])
         == if Wish(w, i).2 > 0.0 then i.yaw else FacingAfter(w, yaw, inputs)
  {
    FacingSplits(w, yaw, inputs + [i], |inputs|);
    assert (inputs + [i])[..|inputs|] == inputs && (inputs + [i])[|inputs|..] == [i];
    assert [i][1..] == [];
  }

  /** The newest of the pending inputs and one more are still the last ones applied. */
  lemma NewestAreLast(pending: seq<Input>, applied: seq<Input>, i: Input)
    requires |pending| <= |applied| && |pending| <= 256 && pending == applied[|applied| - |pending|..]
    ensures var q, all := Newest(pending + [i]), applied + [i];
            |q| <= |all| && |q| <= 256 && q == all[|all| - |q|..]
  {
  }

  lemma PredictConsistent(w: World, p: State, i: Input, applied: seq<Input>)
    requires Consistent(w, p, applied) && i.sequence == p.next
    ensures Consistent(w, Predicted(w, p, i), applied + [i])
  {
    NewestAreLast(p.pending, applied, i);
    FacingSnoc(w, 0.0, applied, i);
    FacingFollowsIntent(w, p.body, i);
  }

  // ------------------------------------------------------ prediction comes true

  /** The same but for the facing, which neither side sends. */
  ghost predicate SameMotion(a: Body, b: Body) {
    a.position == b.position && a.velocity == b.velocity && a.grounded == b.grounded
  }

  lemma {:induction false} RunSameMotion(w: World, a: Body, b: Body, inputs: seq<Input>)
    requires SameMotion(a, b)
    ensures SameMotion(Run(w, a, inputs), Run(w, b, inputs))
    decreases |inputs|
  {
    if inputs != [] { RunSameMotion(w, Step(w, a, inputs[0]), Step(w, b, inputs[0]), inputs[1..]); }
  }

  ghost predicate Describes(a: Authority, server: Body) {
    a.position == server.position && a.velocity == server.velocity
  }

  /** However late the state of input k arrives, as long as the history still reaches
      back to it and the flag agrees, reconciling gives the very state the server is
      in once it has consumed every input so far. */
  lemma PredictionComesTrue(w: World, p: State, a: Authority, applied: seq<Input>, server: Body)
    requires Consistent(w, p, applied) && Describes(a, server)
    requires |applied| - |p.pending| <= a.lastInputSequence <= |applied|
    requires p.body.grounded == server.grounded
    ensures SameMotion(Reconciled(w, p, a).body, Run(w, server, applied[a.lastInputSequence..]))
  {
    PendingAfter(w, p, applied, a.lastInputSequence);
    RunSameMotion(w, Rewound(p.body, a), server, applied[a.lastInputSequence..]);
  }

  lemma ZeroProduct(r: real, s: real)
    requires r * s == 0.0
    ensures r <= 0.0 || s <= 0.0
  {
  }

  lemma NoDistance(w: World, v: Vec3)
    requires w.Lawful()
    ensures Distance(w, v, v) == 0.0
  {
    assert Minus(v, v) == Zero() && w.NormOf(Zero());
    assert w.norm(Zero()) * w.norm(Zero()) == 0.0;
    ZeroProduct(w.norm(Zero()), w.norm(Zero()));
  }

  /** A prediction that was right is left alone: no error, no rollback. */
  lemma RightPredictionStays(w: World, p: State, a: Authority, applied: seq<Input>, server: Body)
    requires w.Lawful() && Consistent(w, p, applied) && Describes(a, server)
    requires |applied| - |p.pending| <= a.lastInputSequence <= |applied|
    requires p.body.grounded == server.grounded
    requires SameMotion(p.body, Run(w, server, applied[a.lastInputSequence..]))
    ensures Reconciled(w, p, a) == p.(pending := applied[a.lastInputSequence..], lastCorrection := 0.0)
  {
    PendingAfter(w, p, applied, a.lastInputSequence);
    PredictionComesTrue(w, p, a, applied, server);
    ReconcileKeepsFacing(w, p, a, applied);
    NoDistance(w, p.body.position);
  }

  /** With nothing to replay the flag is all that can differ, and it decides. */
  lemma NothingPendingFlagDecides(w: World, p: State, a: Authority, server: Body)
    requires p.active && Describes(a, server) && Unacknowledged(p.pending, a.lastInputSequence) == []
    ensures SameMotion(Reconciled(w, p, a).body, server) <==> p.body.grounded == server.grounded
  {
  }

  // ---------------------------------------------------------- what is drawn

  /** How far apart two places are. */
  ghost function Gap(w: World, a: Vec3, b: Vec3): real { w.norm(Vec3(a.x - b.x, a.y - b.y, a.z - b.z)) }

  /** The correction is how far reconciling moves the body, and counts beyond 0.02. */
  lemma CorrectionIsTheMove(w: World, p: State, a: Authority)
    requires p.active
    ensures var q := Reconciled(w, p, a);
            && q.lastCorrection == Gap(w, p.body.position, q.body.position)
            && q.rollbacks == p.rollbacks + (if Gap(w, p.body.position, q.body.position) > 0.02 then 1 else 0)
  {
  }

  /** Unless the move is a teleport, reconciling moves the drawn character by at most the
      tolerance; a move worth counting does not move it at all. */
  lemma DrawnPositionHolds(w: World, p: State, a: Authority)
    requires w.Lawful() && p.active && Gap(w, p.body.position, Reconciled(w, p, a).body.position) <= 2.0
    ensures Gap(w, Rendered(p), Rendered(Reconciled(w, p, a))) <= 0.02
    ensures Gap(w, p.body.position, Reconciled(w, p, a).body.position) > 0.02
        ==> Rendered(Reconciled(w, p, a)) == Rendered(p)
  {
    var q := Reconciled(w, p, a);
    if Correction(w, p, a) <= 0.02 {
      assert Minus(Rendered(p), Rendered(q)) == Minus(p.body.position, q.body.position);
    } else {
      NoDistance(w, Rendered(p));
    }
  }

  /** What a client does between two snapshots. */
  datatype Moment = Ticks(i: Input) | Decays(seconds: real)

  ghost function Later(w: World, exp2: real -> real, p: State, moments: seq<Moment>): State
    decreases |moments|
  {
    if moments == [] then p
    else
      var m := moments[0];
      Later(w, exp2, if m.Ticks? then Predicted(w, p, m.i) else Smoothed(exp2, p, m.seconds), moments[1..])
  }

  lemma {:induction false} NoOffsetStays(w: World, exp2: real -> real, p: State, moments: seq<Moment>)
    requires p.active && p.offset == Zero()
    ensures Rendered(Later(w, exp2, p, moments)) == Later(w, exp2, p, moments).body.position
    decreases |moments|
  {
    if moments != [] {
      var m := moments[0];
      NoOffsetStays(w, exp2, if m.Ticks? then Predicted(w, p, m.i) else Smoothed(exp2, p, m.seconds), moments[1..]);
    }
  }

  /** After a move beyond 2, whatever offset there was before, the character is drawn
      exactly where it is predicted until the next snapshot, through any ticks and frames. */
  lemma TeleportLeavesNoOffset(w: World, exp2: real -> real, p: State, a: Authority, moments: seq<Moment>)
    requires p.active && Gap(w, p.body.position, Reconciled(w, p, a).body.position) > 2.0
    ensures var q := Later(w, exp2, Reconciled(w, p, a), moments); Rendered(q) == q.body.position
  {
    NoOffsetStays(w, exp2, Reconciled(w, p, a), moments);
  }

  /** The law of powers of two. */
  ghost predicate PowersAdd(exp2: real -> real) {
    exp2(0.0) == 1.0 && forall a, b :: PowerAdds(exp2, a, b)
  }

  ghost predicate PowerAdds(exp2: real -> real, a: real, b: real) { exp2(a + b) == exp2(a) * exp2(b) }

  /** The offset after a sequence of frames of these durations. */
  ghost function SmoothedAll(exp2: real -> real, p: State, frames: seq<real>): State
    decreases |frames|
  {
    if frames == [] then p else SmoothedAll(exp2, Smoothed(exp2, p, frames[0]), frames[1..])
  }

  ghost function Total(frames: seq<real>): real { if frames == [] then 0.0 else frames[0] + Total(frames[1..]) }

  lemma TwoFrames(exp2: real -> real, p: State, a: real, b: real)
    requires PowersAdd(exp2)
    ensures Smoothed(exp2, Smoothed(exp2, p, a), b) == Smoothed(exp2, p, a + b)
  {
    assert PowerAdds(exp2, -a / 0.08, -b / 0.08);
    assert -(a + b) / 0.08 == -a / 0.08 + -b / 0.08;
  }

  /** However its time is cut into frames, the offset decays as in one frame of that length. */
  lemma {:induction false} SmoothingIsFramerateIndependent(exp2: real -> real, p: State, frames: seq<real>)
    requires PowersAdd(exp2)
    ensures SmoothedAll(exp2, p, frames) == Smoothed(exp2, p, Total(frames))
    decreases |frames|
  {
    if frames == [] {
      assert -0.0 / 0.08 == 0.0;
    } else {
      SmoothingIsFramerateIndependent(exp2, Smoothed(exp2, p, frames[0]), frames[1..]);
      TwoFrames(exp2, p, frames[0], Total(frames[1..]));
    }
  }

  /** So after any number of half-lives of 0.08 s, in frames of any length, that many halves
      of it are left. */
  lemma {:induction false} SmoothingHalves(exp2: real -> real, p: State, frames: seq<real>, n: nat)
    requires PowersAdd(exp2) && exp2(-1.0) == 0.5 && Total(frames) == n as real * 0.08
    ensures SmoothedAll(exp2, p, frames).offset == Halved(p.offset, n)
  {
    SmoothingIsFramerateIndependent(exp2, p, frames);
    HalfLives(exp2, p.offset, n);
    assert -(n as real * 0.08) / 0.08 == -(n as real);
  }

  ghost function Halved(v: Vec3, n: nat): Vec3
    decreases n
  {
    if n == 0 then v else Halved(Vec3(v.x * 0.5, v.y * 0.5, v.z * 0.5), n - 1)
  }

  lemma {:induction false} HalfLives(exp2: real -> real, v: Vec3, n: nat)
    requires PowersAdd(exp2) && exp2(-1.0) == 0.5
    ensures var k := exp2(-(n as real)); Halved(v, n) == Vec3(v.x * k, v.y * k, v.z * k)
    decreases n
  {
    if n > 0 {
      HalfLives(exp2, Vec3(v.x * 0.5, v.y * 0.5, v.z * 0.5), n - 1);
      assert PowerAdds(exp2, -1.0, -((n - 1) as real));
      assert -1.0 + -((n - 1) as real) == -(n as real);
    }
  }

  // ------------------------------------------------------------- every run

  datatype ClientEvent = Tick(i: Input) | Snapshot(a: Authority)

  /** A run since `init`: ticks number their inputs, snapshots come in any order. */
  ghost function After(w: World, p: State, events: seq<ClientEvent>): State
    decreases |events|
  {
    if events == [] then p
    else
      var e := events[0];
      After(w, if e.Tick? then Predicted(w, p, e.i.(sequence := p.next)) else Reconciled(w, p, e.a), events[1..])
  }

  /** On every run the history stays consistent, so a reconciliation at its end never
      turns the body. */
  lemma {:induction false} RunConsistent(w: World, p: State, applied: seq<Input>, events: seq<ClientEvent>)
    returns (all: seq<Input>)
    requires Consistent(w, p, applied)
    ensures applied <= all && Consistent(w, After(w, p, events), all)
    ensures forall a :: Reconciled(w, After(w, p, events), a).body.facingYaw == After(w, p, events).body.facingYaw
    decreases |events|
  {
    if events == [] {
      all := applied;
      forall a ensures Reconciled(w, p, a).body.facingYaw == p.body.facingYaw {
        ReconcileKeepsFacing(w, p, a, applied);
      }
    } else if events[0].Tick? {
      var i := events[0].i.(sequence := p.next);
      PredictConsistent(w, p, i, applied);
      all := RunConsistent(w, Predicted(w, p, i), applied + [i], events[1..]);
    } else {
      ReconcileConsistent(w, p, events[0].a, applied);
      all := RunConsistent(w, Reconciled(w, p, events[0].a), applied, events[1..]);
    }
  }
}

/** A client's logins: what of an earlier one, or from before the first snapshot, reaches
    into the next. Neither the numbering of inputs nor the count of the snapshot last
    reconciled with starts over until the prediction does, or at all. */
module Logins {
  import opened Character
  import opened Simulation
  import opened Link
  import opened Protocol

  // ------------------------------------------------ inputs sent before the start

  /** The newest snapshot acknowledges no more than has been stepped. */
  ghost predicate AcksKnown(s: System) {
    s.client.latest.Some? ==> s.client.latest.value.lastInputSequence <= |s.inputs|
  }

  /** ... and so it stays, whatever happens. */
  ghost predicate AlwaysKnown(w: World, t: System) {
    forall more, u :: Reaches(w, t, more, u) ==> AcksKnown(u)
  }

  /** As long as nothing has been sent, nothing has reached the server. */
  ghost predicate Quiet(s: System) {
    s.toServer == {} ==> s.server.delayedInputs == [] && s.server.player.input.sequence == 0
  }

  lemma {:induction false} QuietRun(w: World, s: System, events: seq<Event>, t: System)
    requires Quiet(s) && Reaches(w, s, events, t)
    ensures Quiet(t)
    decreases |events|
  {
    if events != [] { QuietRun(w, Next(w, s, events[0]), events[1..], t); }
  }

  /** Once started a prediction stays active, so nothing more is sent before it. */
  lemma {:induction false} StartedRunsClean(w: World, s: System, events: seq<Event>, t: System)
    requires s.client.prediction.active && Reaches(w, s, events, t)
    ensures Clean(w, s, events) && t.client.prediction.active
    decreases |events|
  {
    if events != [] { StartedRunsClean(w, Next(w, s, events[0]), events[1..], t); }
  }

  lemma CleanKnown(w: World, u: System)
    requires Inv(w, u) && CleanInv(u)
    ensures AcksKnown(u)
  {
    if u.client.latest.Some? { assert u.applied[|u.applied| - 1] in u.sent; }
  }

  lemma NothingSentStaysKnown(w: World, s: System, events: seq<Event>, t: System)
    requires Start(s) && Reaches(w, s, events, t) && t.client.prediction.active && t.inputs == [] && t.toServer == {}
    ensures AlwaysKnown(w, t)
  {
    QuietRun(w, s, events, t);
    RunKeeps(w, s, events, t);
    forall more, u | Reaches(w, t, more, u) ensures AcksKnown(u) {
      StartedRunsClean(w, t, more, u);
      CleanRun(w, t, more, u);
      CleanKnown(w, u);
    }
  }

  /** An input on its way at the start can come back as an acknowledgement of what has not
      been numbered yet. */
  lemma SentComesBack(w: World, t: System, i: Input) returns (more: seq<Event>, u: System)
    requires Inv(w, t) && i in t.toServer
    ensures Reaches(w, t, more, u) && u.inputs == t.inputs
    ensures u.client.latest.Some? && u.client.latest.value.lastInputSequence >= i.sequence >= 1
  {
    var t1 := Next(w, t, Hello);
    var t2 := Next(w, t1, Latency(0));
    var t3 := Next(w, t2, InputArrives(i, 0.0));
    var t4 := Next(w, t3, ServerTick(0.0));
    var packet := Made(w, t3.server);
    u := Next(w, t4, SnapshotArrives(packet));
    assert packet in SentAtOnce(w, t3.server);
    NewestIsNotStale(t, packet);
    more := [SnapshotArrives(packet)];
    assert Reaches(w, t4, more, u);
    more := [ServerTick(0.0)] + more;
    assert Reaches(w, t3, more, u);
    more := [InputArrives(i, 0.0)] + more;
    assert Reaches(w, t2, more, u);
    more := [Latency(0)] + more;
    assert Reaches(w, t1, more, u);
    more := [Hello] + more;
  }

  lemma NewestIsNotStale(s: System, p: Packet)
    requires SentInv(s.server, s.sent) && AppliedInv(s.client, s.sent, s.applied) && p.sequence == |s.sent|
    ensures !Stale(s.client, p)
  {
    if s.applied != [] { assert s.applied[|s.applied| - 1] in s.sent; }
  }

  /** From the start of a prediction on, acknowledgements stay within what was stepped, on
      every run, if and only if no input had been sent before. */
  lemma EarlyInputsDecide(w: World, s: System, events: seq<Event>, t: System)
    requires Start(s) && Reaches(w, s, events, t) && t.client.prediction.active && t.inputs == []
    ensures AlwaysKnown(w, t) <==> t.toServer == {}
  {
    if t.toServer == {} {
      NothingSentStaysKnown(w, s, events, t);
    } else {
      RunKeeps(w, s, events, t);
      var i :| i in t.toServer;
      var more, u := SentComesBack(w, t, i);
      assert Reaches(w, t, more, u) && !AcksKnown(u);
    }
  }

  // ------------------------------------------------------------ what they do

  lemma {:induction false} NumberGrows(p: Player, q: seq<Delayed<Input>>)
    requires forall k :: 0 <= k < |q| ==> q[k].item.sequence >= 1
    ensures WithInputs(p, q).input.sequence >= p.input.sequence
    decreases |q|
  {
    if q != [] {
      InputsKeepOrder(p, q[0].item);
      NumberGrows(WithInput(p, q[0].item), q[1..]);
    }
  }

  lemma NextNumberGrows(w: World, s: System, e: Event)
    requires Inv(w, s) && Possible(s, e)
    ensures Next(w, s, e).server.player.input.sequence >= s.server.player.input.sequence
  {
    match e
    case InputArrives(i, _) => InputsKeepOrder(s.server.player, Clamped(i));
    case Release(now) => NumberGrows(s.server.player, s.server.delayedInputs[..Due(s.server.delayedInputs, now)]);
    case _ =>
  }

  /** The newest number the server has had from the player never goes back. */
  lemma {:induction false} RunNumberGrows(w: World, s: System, events: seq<Event>, t: System)
    requires Inv(w, s) && Reaches(w, s, events, t)
    ensures t.server.player.input.sequence >= s.server.player.input.sequence
    decreases |events|
  {
    if events != [] {
      NextKeeps(w, s, events[0]);
      NextNumberGrows(w, s, events[0]);
      RunNumberGrows(w, Next(w, s, events[0]), events[1..], t);
    }
  }

  /** Not one of the inputs stepped would change the server's player. */
  ghost predicate AllIgnored(s: System) {
    forall k :: 0 <= k < |s.inputs| ==> WithInput(s.server.player, Clamped(s.inputs[k])) == s.server.player
  }

  /** A character whose server has a number from before the start does not answer its
      player until the new numbering has caught up. */
  lemma IgnoredUntilCaughtUp(w: World, t: System, more: seq<Event>, u: System)
    requires Inv(w, t) && t.client.prediction.active && Reaches(w, t, more, u)
    requires |u.inputs| < t.server.player.input.sequence
    ensures AllIgnored(u)
  {
    RunNumberGrows(w, t, more, u);
    RunKeeps(w, t, more, u);
    StartedRunsClean(w, t, more, u);
  }

  /** No snapshot yet, whatever has been sent. */
  ghost predicate Waiting(s: System) {
    Start(s.(toServer := {})) && forall i :: i in s.toServer ==> 1 <= i.sequence < s.client.prediction.next
  }

  /** From any start, for any number that the inputs can get to before the first snapshot. */
  lemma {:induction false} EarlyInputAcknowledged(w: World, s: System, intent: Input, now: real, n: nat)
    returns (events: seq<Event>, t: System)
    requires Waiting(s) && s.client.prediction.next <= n
    ensures Reaches(w, s, events, t) && t.client.prediction.active && t.client.prediction.next == 1 && t.inputs == []
    ensures t.server.player.input.sequence == n
    ensures t.client.latest.Some? && t.client.latest.value.lastInputSequence == n
    decreases n - s.client.prediction.next
  {
    var i := intent.(sequence := s.client.prediction.next);
    var s1 := Next(w, s, ClientTick(intent));
    if s.client.prediction.next == n {
      events, t := LastOneArrives(w, s1, i, now);
    } else {
      events, t := EarlyInputAcknowledged(w, s1, intent, now, n);
    }
    events := [ClientTick(intent)] + events;
  }

  lemma LastOneArrives(w: World, s: System, i: Input, now: real) returns (events: seq<Event>, t: System)
    requires Waiting(s) && i in s.toServer
    ensures Reaches(w, s, events, t) && t.client.prediction.active && t.client.prediction.next == 1 && t.inputs == []
    ensures t.server.player.input.sequence == i.sequence
    ensures t.client.latest.Some? && t.client.latest.value.lastInputSequence == i.sequence
  {
    var s1 := Next(w, s, Hello);
    var s2 := Next(w, s1, Latency(0));
    var s3 := Next(w, s2, InputArrives(i, now));
    var s4 := Next(w, s3, ServerTick(now));
    var packet := Made(w, s3.server);
    var s5 := Next(w, s4, SnapshotArrives(packet));
    t := Next(w, s5, Frame);
    assert packet in SentAtOnce(w, s3.server);
    events := [Frame];
    assert Reaches(w, s5, events, t);
    events := [SnapshotArrives(packet)] + events;
    assert Reaches(w, s4, events, t);
    events := [ServerTick(now)] + events;
    assert Reaches(w, s3, events, t);
    events := [InputArrives(i, now)] + events;
    assert Reaches(w, s2, events, t);
    events := [Latency(0)] + events;
    assert Reaches(w, s1, events, t);
    events := [Hello] + events;
  }

  /** So from every start there is a run after which, whatever happens, the first n - 1
      inputs of the prediction do not move the character on the server. */
  lemma FirstInputsLost(w: World, s: System, intent: Input, now: real, n: nat) returns (events: seq<Event>, t: System)
    requires Start(s) && s.client.prediction.next <= n
    ensures Reaches(w, s, events, t) && t.client.prediction.active && t.inputs == []
    ensures forall more, u :: Reaches(w, t, more, u) && |u.inputs| < n ==> AllIgnored(u)
  {
    assert s.(toServer := {}) == s;
    events, t := EarlyInputAcknowledged(w, s, intent, now, n);
    RunKeeps(w, s, events, t);
    forall more, u | Reaches(w, t, more, u) && |u.inputs| < n ensures AllIgnored(u) {
      IgnoredUntilCaughtUp(w, t, more, u);
    }
  }

  // ------------------------------------------------- the snapshot that is missed

  /** With the prediction running, whatever snapshot is applied next is due to be reconciled
      with at the next frame. Another one applied before that takes its place. */
  ghost predicate MissesNone(t: System) {
    t.client.prediction.active ==>
      forall p :: p in t.toClient && !Stale(t.client, p) ==> Reconciles(Delivered(t.client, p))
  }

  ghost predicate NeverMisses(w: World, s: System) {
    forall events, t :: Reaches(w, s, events, t) ==> MissesNone(t)
  }

  /** Until it is first set, the count last reconciled at is that of an earlier login. */
  ghost predicate Counts(c: Client, earlier: nat) {
    && (c.latest.Some? ==> c.received >= 1)
    && (c.prediction.active ==> c.received >= 1)
    && (c.reconciled <= c.received || c.reconciled == earlier)
  }

  lemma {:induction false} RunCounts(w: World, s: System, events: seq<Event>, t: System, earlier: nat)
    requires Counts(s.client, earlier) && Reaches(w, s, events, t)
    ensures Counts(t.client, earlier)
    decreases |events|
  {
    if events != [] { RunCounts(w, Next(w, s, events[0]), events[1..], t, earlier); }
  }

  /** The server is bound and sends at once; the client has had n snapshots and no frame. */
  ghost predicate Receiving(w: World, s: System, n: nat, earlier: nat) {
    && Inv(w, s) && s.server.bound && s.server.latency == 0
    && s.client.received == n && s.client.reconciled == earlier && !s.client.prediction.active
  }

  lemma {:induction false} ReachesOn(w: World, s: System, first: seq<Event>, m: System, more: seq<Event>, t: System)
    requires Reaches(w, s, first, m) && Reaches(w, m, more, t)
    ensures Reaches(w, s, first + more, t)
    decreases |first|
  {
    if first == [] {
      assert first + more == more;
    } else {
      ReachesOn(w, Next(w, s, first[0]), first[1..], m, more, t);
      assert (first + more)[1..] == first[1..] + more;
    }
  }

  lemma MadeArrives(w: World, s: System) returns (packet: Packet, s1: System, t: System)
    requires Inv(w, s) && s.server.bound && s.server.latency == 0
    ensures s1 == Next(w, s, ServerTick(0.0)) && packet == Made(w, s.server) && packet in s1.toClient
    ensures t == Next(w, s1, SnapshotArrives(packet)) && !Stale(s1.client, packet) && Inv(w, t)
  {
    s1, packet := Next(w, s, ServerTick(0.0)), Made(w, s.server);
    assert packet in SentAtOnce(w, s.server);
    NewestIsNotStale(s, packet);
    NextKeeps(w, s, ServerTick(0.0));
    t := Next(w, s1, SnapshotArrives(packet));
    NextKeeps(w, s1, SnapshotArrives(packet));
  }

  lemma OneMoreReceived(w: World, s: System, n: nat, earlier: nat) returns (events: seq<Event>, t: System)
    requires Receiving(w, s, n, earlier)
    ensures Reaches(w, s, events, t) && Receiving(w, t, n + 1, earlier)
  {
    var packet, s1;
    packet, s1, t := MadeArrives(w, s);
    events := [SnapshotArrives(packet)];
    assert Reaches(w, s1, events, t);
    events := [ServerTick(0.0)] + events;
  }

  lemma {:induction false} ManyReceived(w: World, s: System, n: nat, earlier: nat, m: nat) returns (events: seq<Event>, t: System)
    requires Receiving(w, s, n, earlier) && n <= m
    ensures Reaches(w, s, events, t) && Receiving(w, t, m, earlier)
    decreases m - n
  {
    if n == m {
      events, t := [], s;
    } else {
      var first, s' := OneMoreReceived(w, s, n, earlier);
      events, t := ManyReceived(w, s', n + 1, earlier, m);
      ReachesOn(w, s, first, s', events, t);
      events := first + events;
    }
  }

  lemma FirstReceived(w: World, s: System) returns (events: seq<Event>, t: System)
    requires Start(s)
    ensures Reaches(w, s, events, t) && Receiving(w, t, 0, s.client.reconciled)
  {
    var s1 := Next(w, s, Hello);
    t := Next(w, s1, Latency(0));
    NextKeeps(w, s, Hello);
    NextKeeps(w, s1, Latency(0));
    events := [Latency(0)];
    assert Reaches(w, s1, events, t);
    events := [Hello] + events;
  }

  /** The next snapshot comes between the frame that starts the prediction and the one after. */
  lemma MissesNext(w: World, s: System, n: nat) returns (events: seq<Event>, t: System)
    requires Receiving(w, s, n, n + 1) && n >= 1
    ensures Reaches(w, s, events, t) && !MissesNone(t)
  {
    var s1 := Next(w, s, Frame);
    t := Next(w, s1, ServerTick(0.0));
    var packet := Made(w, s1.server);
    assert packet in SentAtOnce(w, s1.server);
    NewestIsNotStale(s, packet);
    assert packet in t.toClient && !Stale(t.client, packet) && !Reconciles(Delivered(t.client, packet));
    events := [ServerTick(0.0)];
    assert Reaches(w, s1, events, t);
    events := [Frame] + events;
  }

  lemma LaterLoginMisses(w: World, s: System) returns (events: seq<Event>, t: System)
    requires Start(s) && s.client.reconciled >= 2
    ensures Reaches(w, s, events, t) && !MissesNone(t)
  {
    var n := s.client.reconciled;
    var first, m := FirstReceived(w, s);
    var more, m' := ManyReceived(w, m, 0, n, n - 1);
    ReachesOn(w, s, first, m, more, m');
    events, t := MissesNext(w, m', n - 1);
    ReachesOn(w, s, first + more, m', events, t);
    events := first + more + events;
  }

  /** Once the prediction runs every snapshot applied is due to be reconciled with at the
      next frame, on every run, if and only if the client comes without a count, or with
      that of its one snapshot. */
  lemma NeverMissesIff(w: World, s: System)
    requires Start(s)
    ensures NeverMisses(w, s) <==> s.client.reconciled <= 1
  {
    if s.client.reconciled <= 1 {
      forall events, t | Reaches(w, s, events, t) ensures MissesNone(t) {
        RunCounts(w, s, events, t, s.client.reconciled);
      }
    } else {
      var events, t := LaterLoginMisses(w, s);
      assert Reaches(w, s, events, t) && !MissesNone(t);
    }
  }
}

/** Walking, the usual case: once client and server both stand, the ground flag that is not
    sent is right anyway, and no reconciliation of the run corrects anything. */
module Walking {
  import opened Character
  import opened Prediction
  import opened PredictionTheorems
  import opened Simulation
  import opened Link
  import opened Protocol
  import opened Logins

  /** A stick within its range, no jump, and slow enough to keep to the ground. */
  ghost predicate Walk(w: World, i: Input) { WithinStick(i) && Gentle(w, i) }

  ghost predicate Walks(w: World, inputs: seq<Input>, first: nat) {
    forall k :: first <= k < |inputs| ==> Walk(w, inputs[k])
  }

  // ------------------------------------------------------- the server's character

  /** Of every body that is spawned, and of every one after a tick. */
  ghost predicate Sound(w: World, b: Body) { Bounded(b) && (b.grounded ==> Standing(w, b)) }

  lemma SoundNext(w: World, s: System, e: Event)
    requires w.Lawful() && Inv(w, s) && Sound(w, s.server.player.body)
    ensures Sound(w, Next(w, s, e).server.player.body)
  {
    match e
    case ServerTick(_) => StepInvariant(w, s.server.player.body, s.server.player.input);
    case Release(now) => InputsArriveInOrder(s.server.player, s.server.delayedInputs[..Due(s.server.delayedInputs, now)]);
    case _ =>
  }

  lemma {:induction false} SoundRun(w: World, s: System, events: seq<Event>, t: System)
    requires w.Lawful() && Inv(w, s) && Sound(w, s.server.player.body) && Reaches(w, s, events, t)
    ensures Sound(w, t.server.player.body)
    decreases |events|
  {
    if events != [] {
      NextKeeps(w, s, events[0]);
      SoundNext(w, s, events[0]);
      SoundRun(w, Next(w, s, events[0]), events[1..], t);
    }
  }

  // --------------------------------------------- bodies from one state of the server on

  /** Where the inputs up to number n take the body that p has. */
  ghost function Since(w: World, p: Player, inputs: seq<Input>, n: nat): Body
    requires p.lastInputSequence <= n <= |inputs|
  {
    Run(w, p.body, inputs[p.lastInputSequence..n])
  }

  lemma SinceKept(w: World, p: Player, inputs: seq<Input>, more: seq<Input>, n: nat)
    requires inputs <= more && p.lastInputSequence <= n <= |inputs|
    ensures Since(w, p, more, n) == Since(w, p, inputs, n)
  {
    SamePart(inputs, more, p.lastInputSequence, n);
  }

  lemma SinceOne(w: World, p: Player, inputs: seq<Input>, n: nat)
    requires p.lastInputSequence <= n < |inputs|
    ensures Since(w, p, inputs, n + 1) == Step(w, Since(w, p, inputs, n), inputs[n])
  {
    var i := p.lastInputSequence;
    assert inputs[i..n + 1] == inputs[i..n] + [inputs[n]];
    RunOn(w, p.body, inputs[i..n], [inputs[n]]);
    assert [inputs[n]][1..] == [];
  }

  lemma SinceOn(w: World, p: Player, q: Player, inputs: seq<Input>, n: nat)
    requires p.lastInputSequence <= q.lastInputSequence <= n <= |inputs|
    requires q.body == Since(w, p, inputs, q.lastInputSequence)
    ensures Run(w, q.body, inputs[q.lastInputSequence..n]) == Since(w, p, inputs, n)
  {
    var i, j := p.lastInputSequence, q.lastInputSequence;
    RunOn(w, p.body, inputs[i..j], inputs[j..n]);
    assert inputs[i..j] + inputs[j..n] == inputs[i..n];
  }

  /** The character stands, and so it will after any walk. */
  ghost predicate Stands(w: World, b: Body) { Bounded(b) && Standing(w, b) && b.grounded }

  lemma SinceGrounded(w: World, p: Player, inputs: seq<Input>, n: nat)
    requires w.Lawful() && Stands(w, p.body) && Walks(w, inputs, p.lastInputSequence)
    requires p.lastInputSequence <= n <= |inputs|
    ensures Since(w, p, inputs, n).grounded
  {
    var walk := inputs[p.lastInputSequence..n];
    forall k | 0 <= k < |walk| ensures Gentle(w, walk[k]) { assert Walk(w, inputs[p.lastInputSequence + k]); }
    GentleRunStaysGrounded(w, p.body, walk);
  }

  // ------------------------------------------------------------ the server's side

  ghost predicate MadeSince(w: World, p: Player, inputs: seq<Input>, maker: Player) {
    && p.lastInputSequence <= maker.lastInputSequence <= |inputs|
    && maker.body == Since(w, p, inputs, maker.lastInputSequence)
  }

  /** The server's player, and all that packets have been made of from number `from` on, are
      where the inputs have taken p. */
  ghost predicate OnTrack(w: World, s: System, p: Player, from: nat) {
    && MadeSince(w, p, s.inputs, s.server.player)
    && (forall k :: from <= k < |s.makers| ==> MadeSince(w, p, s.inputs, s.makers[k]))
  }

  lemma MadeStays(w: World, p: Player, inputs: seq<Input>, more: seq<Input>, maker: Player)
    requires inputs <= more && MadeSince(w, p, inputs, maker)
    ensures MadeSince(w, p, more, maker)
  {
    SinceKept(w, p, inputs, more, maker.lastInputSequence);
  }

  lemma ServedOnTrack(w: World, p: Player, inputs: seq<Input>, q: Player, r: Player)
    requires MadeSince(w, p, inputs, q) && q.lastInputSequence < |inputs| && Walk(w, inputs[q.lastInputSequence])
    requires r.lastInputSequence == q.lastInputSequence + 1
    requires r.body == Step(w, q.body, Clamped(inputs[q.lastInputSequence]))
    ensures MadeSince(w, p, inputs, r)
  {
    assert Clamped(inputs[q.lastInputSequence]) == inputs[q.lastInputSequence];
    SinceOne(w, p, inputs, q.lastInputSequence);
  }

  lemma UnservedOnTrack(w: World, p: Player, inputs: seq<Input>, more: seq<Input>, q: Player, r: Player)
    requires inputs <= more && MadeSince(w, p, inputs, q)
    requires r.lastInputSequence == q.lastInputSequence && r.body == q.body
    ensures MadeSince(w, p, more, r)
  {
    MadeStays(w, p, inputs, more, q);
  }

  lemma ServerOnTrack(w: World, s: System, e: Event, p: Player)
    requires Inv(w, s) && CleanInv(s) && Possible(s, e) && s.client.prediction.active
    requires e.ServerTick? ==> s.server.player.input.sequence == s.server.player.lastInputSequence + 1
    requires MadeSince(w, p, s.inputs, s.server.player) && Walks(w, s.inputs, p.lastInputSequence)
    ensures s.inputs <= Next(w, s, e).inputs && MadeSince(w, p, Next(w, s, e).inputs, Next(w, s, e).server.player)
  {
    var q, t := s.server.player, Next(w, s, e);
    BodyAfter(w, s, e);
    if e.ServerTick? {
      assert Walk(w, s.inputs[q.lastInputSequence]);
      ServedOnTrack(w, p, s.inputs, q, t.server.player);
    } else {
      UnservedOnTrack(w, p, s.inputs, t.inputs, q, t.server.player);
    }
  }

  lemma TrackNext(w: World, s: System, e: Event, p: Player, from: nat)
    requires Inv(w, s) && CleanInv(s) && Possible(s, e) && s.client.prediction.active
    requires e.ServerTick? ==> s.server.player.input.sequence == s.server.player.lastInputSequence + 1
    requires OnTrack(w, s, p, from) && Walks(w, s.inputs, p.lastInputSequence)
    ensures s.inputs <= Next(w, s, e).inputs && OnTrack(w, Next(w, s, e), p, from)
  {
    var t := Next(w, s, e);
    ServerOnTrack(w, s, e, p);
    forall k | from <= k < |t.makers| ensures MadeSince(w, p, t.inputs, t.makers[k]) {
      if k < |s.makers| { MadeStays(w, p, s.inputs, t.inputs, s.makers[k]); }
    }
  }

  // ------------------------------------------------------------ the client's side

  /** The client is where the inputs have taken p, all of them. */
  ghost predicate Ahead(w: World, s: System, p: Player) {
    && s.client.prediction.active && p.lastInputSequence <= |s.inputs|
    && SameMotion(s.client.prediction.body, Since(w, p, s.inputs, |s.inputs|))
  }

  /** What is applied was made from number `from` on. */
  ghost predicate Fresh(s: System, from: nat) { s.applied != [] && s.client.last >= from }

  /** The history reaches back to what the newest snapshot acknowledges. */
  ghost predicate InHistory(s: System) {
    s.client.latest.Some? && |s.inputs| <= s.client.latest.value.lastInputSequence + 256
  }

  /** The maker of a packet that is fresh stands, and is where the inputs took p. */
  lemma FreshMaker(w: World, s: System, p: Player, from: nat) returns (maker: Player)
    requires w.Lawful() && Inv(w, s) && OnTrack(w, s, p, from) && Fresh(s, from)
    requires Stands(w, p.body) && Walks(w, s.inputs, p.lastInputSequence)
    ensures Maker(s, maker) && StateOf(maker).state == s.client.latest.value
    ensures MadeSince(w, p, s.inputs, maker) && maker.body.grounded
    ensures Run(w, maker.body, s.inputs[maker.lastInputSequence..]) == Since(w, p, s.inputs, |s.inputs|)
  {
    maker := MakerDescribed(w, s);
    assert MadeSince(w, p, s.inputs, maker);
    SinceGrounded(w, p, s.inputs, maker.lastInputSequence);
    SinceOn(w, p, maker, s.inputs, |s.inputs|);
    assert s.inputs[maker.lastInputSequence..|s.inputs|] == s.inputs[maker.lastInputSequence..];
  }

  lemma HistoryReaches(w: World, s: System)
    requires Inv(w, s) && CleanInv(s) && Reconciles(s.client) && InHistory(s)
    ensures |s.inputs| - |s.client.prediction.pending| <= s.client.latest.value.lastInputSequence <= |s.inputs|
    ensures Consistent(w, s.client.prediction, s.inputs)
  {
    AckInHistory(w, s);
  }

  lemma ReconcileMotion(w: World, s: System, p: Player, from: nat)
    requires w.Lawful() && Inv(w, s) && CleanInv(s) && OnTrack(w, s, p, from) && Fresh(s, from)
    requires Reconciles(s.client) && InHistory(s) && s.client.prediction.body.grounded
    requires Stands(w, p.body) && Walks(w, s.inputs, p.lastInputSequence)
    ensures SameMotion(Reconciled(w, s.client.prediction, s.client.latest.value).body, Since(w, p, s.inputs, |s.inputs|))
  {
    var maker := FreshMaker(w, s, p, from);
    HistoryReaches(w, s);
    PredictionComesTrue(w, s.client.prediction, s.client.latest.value, s.inputs, maker.body);
  }

  lemma FrameReconciles(w: World, s: System)
    requires Reconciles(s.client)
    ensures var t := Next(w, s, Frame);
            t.inputs == s.inputs && t.client.prediction == Reconciled(w, s.client.prediction, s.client.latest.value)
  {
  }

  lemma AheadIn(w: World, s: System, p: Player, inputs: seq<Input>, prediction: State)
    requires p.lastInputSequence <= |inputs| && SameMotion(prediction.body, Since(w, p, inputs, |inputs|))
    requires s.inputs == inputs && s.client.prediction == prediction && prediction.active
    ensures Ahead(w, s, p)
  {
  }

  /** Reconciling with a fresh packet puts a client that stands where it should be ... */
  lemma ReconcileAhead(w: World, s: System, t: System, p: Player, from: nat)
    requires w.Lawful() && Inv(w, s) && CleanInv(s) && OnTrack(w, s, p, from) && Fresh(s, from)
    requires Reconciles(s.client) && InHistory(s) && s.client.prediction.body.grounded
    requires Stands(w, p.body) && Walks(w, s.inputs, p.lastInputSequence) && t == Next(w, s, Frame)
    ensures Ahead(w, t, p)
  {
    ReconcileMotion(w, s, p, from);
    FrameReconciles(w, s);
    AheadIn(w, t, p, s.inputs, Reconciled(w, s.client.prediction, s.client.latest.value));
  }

  /** ... and if it is there already corrects nothing. */
  lemma ReconcileStays(w: World, s: System, p: Player, from: nat)
    requires w.Lawful() && Inv(w, s) && CleanInv(s) && OnTrack(w, s, p, from) && Fresh(s, from)
    requires Reconciles(s.client) && InHistory(s) && Ahead(w, s, p)
    requires Stands(w, p.body) && Walks(w, s.inputs, p.lastInputSequence)
    ensures var a, b := s.client.prediction, Framed(w, s.client).prediction;
            b.body == a.body && b.rollbacks == a.rollbacks && b.lastCorrection == 0.0
  {
    var maker := FreshMaker(w, s, p, from);
    SinceGrounded(w, p, s.inputs, |s.inputs|);
    HistoryReaches(w, s);
    RightPredictionStays(w, s.client.prediction, s.client.latest.value, s.inputs, maker.body);
  }

  lemma StepSameMotion(w: World, a: Body, b: Body, i: Input)
    requires SameMotion(a, b)
    ensures SameMotion(Step(w, a, i), Step(w, b, i))
  {
  }

  lemma OneMoreAhead(w: World, p: Player, inputs: seq<Input>, i: Input, b: Body)
    requires p.lastInputSequence <= |inputs| && SameMotion(b, Since(w, p, inputs, |inputs|))
    ensures SameMotion(Step(w, b, i), Since(w, p, inputs + [i], |inputs| + 1))
  {
    SinceKept(w, p, inputs, inputs + [i], |inputs|);
    SinceOne(w, p, inputs + [i], |inputs|);
    StepSameMotion(w, b, Since(w, p, inputs, |inputs|), i);
  }

  lemma TickAhead(w: World, s: System, p: Player, intent: Input)
    requires Ahead(w, s, p)
    ensures Ahead(w, Next(w, s, ClientTick(intent)), p)
  {
    var t, i := Next(w, s, ClientTick(intent)), intent.(sequence := s.client.prediction.next);
    OneMoreAhead(w, p, s.inputs, i, s.client.prediction.body);
    AheadIn(w, t, p, s.inputs + [i], Predicted(w, s.client.prediction, i));
  }

  lemma FreshNext(w: World, s: System, e: Event, from: nat)
    requires Inv(w, s) && Possible(s, e) && Fresh(s, from)
    ensures Fresh(Next(w, s, e), from)
  {
  }

  /** Nothing but ticks and reconciliations touches a started prediction. */
  lemma PredictionRests(w: World, s: System, e: Event)
    requires s.client.prediction.active && !e.ClientTick? && !(e.Frame? && Reconciles(s.client))
    ensures var t := Next(w, s, e); t.inputs == s.inputs && t.client.prediction == s.client.prediction
  {
  }

  lemma FrameAhead(w: World, s: System, t: System, p: Player, from: nat)
    requires w.Lawful() && Inv(w, s) && CleanInv(s) && OnTrack(w, s, p, from) && Fresh(s, from)
    requires Reconciles(s.client) && InHistory(s) && Ahead(w, s, p)
    requires Stands(w, p.body) && Walks(w, s.inputs, p.lastInputSequence) && t == Next(w, s, Frame)
    ensures Ahead(w, t, p) && t.client.prediction.rollbacks == s.client.prediction.rollbacks
  {
    ReconcileStays(w, s, p, from);
    FrameReconciles(w, s);
    AheadIn(w, t, p, s.inputs, Reconciled(w, s.client.prediction, s.client.latest.value));
  }

  lemma AheadNext(w: World, s: System, e: Event, t: System, p: Player, from: nat)
    requires w.Lawful() && Inv(w, s) && CleanInv(s) && OnTrack(w, s, p, from) && Fresh(s, from)
    requires (e.Frame? && Reconciles(s.client) ==> InHistory(s)) && t == Next(w, s, e)
    requires Stands(w, p.body) && Walks(w, s.inputs, p.lastInputSequence) && Ahead(w, s, p)
    ensures Ahead(w, t, p) && t.client.prediction.rollbacks == s.client.prediction.rollbacks
  {
    if e.ClientTick? {
      TickAhead(w, s, p, e.intent);
    } else if e.Frame? && Reconciles(s.client) {
      FrameAhead(w, s, t, p, from);
    } else {
      PredictionRests(w, s, e);
      AheadIn(w, t, p, s.inputs, s.client.prediction);
    }
  }

  // ------------------------------------------------------------------ the run

  /** Every reconciliation of the run is with a snapshot within the history. */
  ghost predicate Timely(w: World, s: System, events: seq<Event>)
    decreases |events|
  {
    events == []
    || ((events[0].Frame? && Reconciles(s.client) ==> InHistory(s)) && Timely(w, Next(w, s, events[0]), events[1..]))
  }

  lemma {:induction false} InputsGrow(w: World, s: System, events: seq<Event>, t: System)
    requires s.client.prediction.active && Reaches(w, s, events, t)
    ensures s.inputs <= t.inputs
    decreases |events|
  {
    if events != [] { InputsGrow(w, Next(w, s, events[0]), events[1..], t); }
  }

  lemma WalksSoFar(w: World, inputs: seq<Input>, more: seq<Input>, first: nat)
    requires inputs <= more && Walks(w, more, first)
    ensures Walks(w, inputs, first)
  {
    forall k | first <= k < |inputs| ensures Walk(w, inputs[k]) { assert Walk(w, more[k]); }
  }

  lemma {:induction false} TrackRun(w: World, s: System, events: seq<Event>, t: System, p: Player, from: nat)
    requires Inv(w, s) && CleanInv(s) && s.client.prediction.active && OnTrack(w, s, p, from)
    requires Reaches(w, s, events, t) && InOrder(w, s, events) && Walks(w, t.inputs, p.lastInputSequence)
    ensures OnTrack(w, t, p, from)
    decreases |events|
  {
    if events != [] {
      var e, s' := events[0], Next(w, s, events[0]);
      InputsGrow(w, s, events, t);
      WalksSoFar(w, s.inputs, t.inputs, p.lastInputSequence);
      NextKeeps(w, s, e);
      CleanNext(w, s, e);
      TrackNext(w, s, e, p, from);
      TrackRun(w, s', events[1..], t, p, from);
    }
  }

  lemma {:induction false} AheadRun(w: World, s: System, events: seq<Event>, t: System, p: Player, from: nat)
    requires w.Lawful() && Inv(w, s) && CleanInv(s) && OnTrack(w, s, p, from) && Fresh(s, from) && Ahead(w, s, p)
    requires Reaches(w, s, events, t) && InOrder(w, s, events) && Timely(w, s, events)
    requires Stands(w, p.body) && Walks(w, t.inputs, p.lastInputSequence)
    ensures OnTrack(w, t, p, from) && Fresh(t, from) && Ahead(w, t, p)
    ensures t.client.prediction.rollbacks == s.client.prediction.rollbacks
    decreases |events|
  {
    if events != [] {
      var e, s' := events[0], Next(w, s, events[0]);
      InputsGrow(w, s, events, t);
      WalksSoFar(w, s.inputs, t.inputs, p.lastInputSequence);
      NextKeeps(w, s, e);
      CleanNext(w, s, e);
      TrackNext(w, s, e, p, from);
      FreshNext(w, s, e, from);
      AheadNext(w, s, e, s', p, from);
      AheadRun(w, s', events[1..], t, p, from);
    }
  }

  /** The client stands as it reconciles, within the history, with a packet that was made
      from number `from` on. */
  ghost predicate StandsAndHears(c: System, from: nat) {
    Reconciles(c.client) && c.client.last >= from && InHistory(c) && c.client.prediction.body.grounded
  }

  lemma StartTrack(w: World, m: System)
    requires Inv(w, m) && CleanInv(m)
    ensures OnTrack(w, m, m.server.player, |m.sent|)
  {
    var n := m.server.player.lastInputSequence;
    assert m.inputs[n..n] == [];
  }

  /** The client and the server's character as they are when c is reached, and after the frame. */
  lemma HeardOnTrack(w: World, m: System, between: seq<Event>, c: System)
    requires w.Lawful() && Inv(w, m) && CleanInv(m) && m.client.prediction.active && Stands(w, m.server.player.body)
    requires Reaches(w, m, between, c) && InOrder(w, m, between) && StandsAndHears(c, |m.sent|)
    requires Walks(w, c.inputs, m.server.player.lastInputSequence)
    ensures var d, p := Next(w, c, Frame), m.server.player;
            Inv(w, d) && CleanInv(d) && OnTrack(w, d, p, |m.sent|) && Fresh(d, |m.sent|) && Ahead(w, d, p)
  {
    var p, from := m.server.player, |m.sent|;
    StartTrack(w, m);
    StartedRunsClean(w, m, between, c);
    CleanRun(w, m, between, c);
    TrackRun(w, m, between, c, p, from);
    ReconcileAhead(w, c, Next(w, c, Frame), p, from);
    NextKeeps(w, c, Frame);
    CleanNext(w, c, Frame);
    TrackNext(w, c, Frame, p, from);
    FreshNext(w, c, Frame, from);
  }

  /** What a client that is ahead has at any time: its own flag and that of the maker of the
      newest packet are both right, and it is where the server will be. */
  lemma AheadAgrees(w: World, t: System, p: Player, from: nat)
    requires w.Lawful() && Inv(w, t) && OnTrack(w, t, p, from) && Fresh(t, from) && Ahead(w, t, p)
    requires Stands(w, p.body) && Walks(w, t.inputs, p.lastInputSequence)
    ensures t.client.prediction.body.grounded && forall maker :: Maker(t, maker) ==> maker.body.grounded
    ensures t.server.player.lastInputSequence <= |t.inputs|
    ensures SameMotion(t.client.prediction.body,
                       Run(w, t.server.player.body, t.inputs[t.server.player.lastInputSequence..]))
  {
    var n := t.server.player.lastInputSequence;
    SinceGrounded(w, p, t.inputs, |t.inputs|);
    var maker := FreshMaker(w, t, p, from);
    SinceOn(w, p, t.server.player, t.inputs, |t.inputs|);
    assert t.inputs[n..|t.inputs|] == t.inputs[n..];
  }

  lemma HeardWalks(w: World, c: System, d: System, after: seq<Event>, t: System, first: nat)
    requires Reconciles(c.client) && d == Next(w, c, Frame) && Reaches(w, d, after, t) && Walks(w, t.inputs, first)
    ensures Walks(w, c.inputs, first)
  {
    FrameReconciles(w, c);
    InputsGrow(w, d, after, t);
    WalksSoFar(w, c.inputs, t.inputs, first);
  }

  lemma StandsOnceFlagged(w: World, s: System, before: seq<Event>, m: System)
    requires w.Lawful() && Start(s) && Bounded(s.server.player.body) && !s.server.player.body.grounded
    requires Reaches(w, s, before, m) && Clean(w, s, before) && m.server.player.body.grounded
    ensures Inv(w, m) && CleanInv(m) && Stands(w, m.server.player.body)
  {
    CleanRun(w, s, before, m);
    SoundRun(w, s, before, m);
  }

  lemma WalkOn(w: World, d: System, after: seq<Event>, t: System, p: Player, from: nat)
    requires w.Lawful() && Inv(w, d) && CleanInv(d) && OnTrack(w, d, p, from) && Fresh(d, from) && Ahead(w, d, p)
    requires Reaches(w, d, after, t) && InOrder(w, d, after) && Timely(w, d, after)
    requires Stands(w, p.body) && Walks(w, t.inputs, p.lastInputSequence)
    ensures t.client.prediction.rollbacks == d.client.prediction.rollbacks
    ensures t.client.prediction.body.grounded && forall maker :: Maker(t, maker) ==> maker.body.grounded
    ensures t.server.player.lastInputSequence <= |t.inputs|
    ensures SameMotion(t.client.prediction.body,
                       Run(w, t.server.player.body, t.inputs[t.server.player.lastInputSequence..]))
  {
    AheadRun(w, d, after, t, p, from);
    RunKeeps(w, d, after, t);
    AheadAgrees(w, t, p, from);
  }

  /** In m the server's character stands; from then on the player walks, and each input is
      consumed once and in order. In c the client reconciles, while it stands, with a packet
      made since m. Then on the whole run from there no reconciliation within the history
      counts a rollback, the ground flags agree, and the client is always where the server
      will be. */
  lemma WalkingNeverRollsBack(w: World, s: System, before: seq<Event>, m: System, between: seq<Event>, c: System,
                              after: seq<Event>, t: System)
    requires w.Lawful() && Start(s) && Bounded(s.server.player.body) && !s.server.player.body.grounded
    requires Reaches(w, s, before, m) && Clean(w, s, before)
    requires m.client.prediction.active && m.server.player.body.grounded
    requires Reaches(w, m, between, c) && InOrder(w, m, between) && StandsAndHears(c, |m.sent|)
    requires Reaches(w, Next(w, c, Frame), after, t) && InOrder(w, Next(w, c, Frame), after)
    requires Timely(w, Next(w, c, Frame), after)
    requires Walks(w, t.inputs, m.server.player.lastInputSequence)
    ensures t.client.prediction.rollbacks == Next(w, c, Frame).client.prediction.rollbacks
    ensures t.client.prediction.body.grounded && forall maker :: Maker(t, maker) ==> maker.body.grounded
    ensures t.server.player.lastInputSequence <= |t.inputs|
    ensures SameMotion(t.client.prediction.body,
                       Run(w, t.server.player.body, t.inputs[t.server.player.lastInputSequence..]))
  {
    var p, d := m.server.player, Next(w, c, Frame);
    StandsOnceFlagged(w, s, before, m);
    HeardWalks(w, c, d, after, t, p.lastInputSequence);
    HeardOnTrack(w, m, between, c);
    WalkOn(w, d, after, t, p, |m.sent|);
  }
}

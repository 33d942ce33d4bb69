/** Predict, acknowledge, replay: one player's client and server over a network that
    loses, duplicates and reorders datagrams at will. Everything ever sent may arrive
    any number of times, or never. */
module Protocol {
  import opened Common
  import opened Character
  import opened Prediction
  import opened PredictionTheorems
  import opened Simulation
  import opened Link

  /** A reconciliation: what was acknowledged and what was replayed. */
  datatype Replay = Replay(ack: nat, inputs: seq<Input>)

  /** The two ends and the wire; `sent` and `makers` record the packets made and the
      server's player that each was made of, `applied`, `replays` and `inputs` the packets
      applied, the reconciliations, and the inputs stepped since the prediction started. */
  datatype System = System(server: Server, client: Client, toServer: set<Input>, toClient: set<Packet>,
                           sent: seq<Packet>, makers: seq<Player>, applied: seq<Packet>, replays: seq<Replay>,
                           inputs: seq<Input>)

  datatype Event =
    | Hello
    | Latency(milliseconds: nat)
    | ClientTick(intent: Input)
    | InputArrives(input: Input, now: real)
    | ServerTick(now: real)
    | Release(now: real)
    | SnapshotArrives(packet: Packet)
    | Frame

  ghost predicate Possible(s: System, e: Event) {
    && (e.InputArrives? ==> e.input in s.toServer)
    && (e.SnapshotArrives? ==> e.packet in s.toClient)
  }

  ghost function Elements<T>(q: seq<T>): set<T> { set x | x in q }

  ghost predicate Reconciles(c: Client) { c.latest.Some? && c.prediction.active && c.received != c.reconciled }

  ghost function ReplayOf(c: Client): Replay
    requires Reconciles(c)
  {
    var ack := c.latest.value.lastInputSequence;
    Replay(ack, Unacknowledged(c.prediction.pending, ack))
  }

  ghost function Next(w: World, s: System, e: Event): System {
    match e
    case Hello => s.(server := s.server.(bound := true))
    case Latency(ms) => s.(server := s.server.(latency := ms))
    case ClientTick(intent) =>
      var p := s.client.prediction;
      var i := intent.(sequence := p.next);
      s.(client := s.client.(prediction := Predicted(w, p, i)), toServer := s.toServer + {i},
         inputs := if p.active then s.inputs + [i] else s.inputs)
    case InputArrives(i, now) => s.(server := Arrived(s.server, i, now))
    case ServerTick(now) =>
      s.(server := Stepped(w, s.server, now), toClient := s.toClient + Elements(SentAtOnce(w, s.server)),
         sent := if s.server.bound then s.sent + [Made(w, s.server)] else s.sent,
         makers := if s.server.bound then s.makers + [Ticked(w, s.server.player)] else s.makers)
    case Release(now) =>
      s.(server := Released(s.server, now), toClient := s.toClient + Elements(SentLate(s.server, now)))
    case SnapshotArrives(p) =>
      s.(client := Delivered(s.client, p), applied := if Stale(s.client, p) then s.applied else s.applied + [p])
    case Frame =>
      s.(client := Framed(w, s.client),
         replays := if Reconciles(s.client) then s.replays + [ReplayOf(s.client)] else s.replays,
         inputs := if s.client.latest.Some? && !s.client.prediction.active then [] else s.inputs)
  }

  /** The player has joined; nothing is on the wire. It need not be the client's first login:
      what `shutdown` and a new connection leave, the numbering of inputs and the count of
      the snapshot last reconciled with, may be anything. */
  ghost predicate Start(s: System) {
    && s.server.player.input == NO_INPUT && s.server.player.lastInputSequence == 0
    && !s.server.bound && s.server.outgoing == 0 && s.server.delayedInputs == [] && s.server.delayedOutgoing == []
    && !s.client.prediction.active && s.client.prediction.next >= 1
    && s.client.received == 0 && s.client.latest == None
    && s.toServer == {} && s.toClient == {}
    && s.sent == [] && s.makers == [] && s.applied == [] && s.replays == [] && s.inputs == []
  }

  // -------------------------------------------------------- what always holds

  /** No input numbered 0 is ever on its way. */
  ghost predicate WireInv(server: Server, toServer: set<Input>) {
    && (forall i :: i in toServer ==> i.sequence >= 1)
    && (forall k :: 0 <= k < |server.delayedInputs| ==> server.delayedInputs[k].item.sequence >= 1)
    && server.player.lastInputSequence <= server.player.input.sequence
  }

  /** Packets are numbered in the order they are made, and what they say only grows. */
  ghost predicate SentInv(server: Server, sent: seq<Packet>) {
    && server.outgoing == |sent|
    && (forall k :: 0 <= k < |sent| ==>
          sent[k].sequence == k && sent[k].tick <= server.tick
          && sent[k].state.lastInputSequence <= server.player.lastInputSequence)
    && (forall j, k :: 0 <= j < k < |sent| ==>
          sent[j].tick < sent[k].tick && sent[j].state.lastInputSequence <= sent[k].state.lastInputSequence)
  }

  /** Every packet tells the state of the player it was made of, with all its input in it. */
  ghost predicate MadeInv(sent: seq<Packet>, makers: seq<Player>) {
    && |makers| == |sent|
    && (forall k :: 0 <= k < |makers| ==>
          StateOf(makers[k]).state == sent[k].state && makers[k].input.sequence == makers[k].lastInputSequence)
  }

  ghost predicate InFlight(server: Server, toClient: set<Packet>, sent: seq<Packet>) {
    && (forall p :: p in toClient ==> p in sent)
    && (forall k :: 0 <= k < |server.delayedOutgoing| ==> server.delayedOutgoing[k].item in sent)
  }

  ghost predicate AppliedInv(c: Client, sent: seq<Packet>, applied: seq<Packet>) {
    && c.received == |applied|
    && (applied == [] ==> c.latest == None)
    && (applied != [] ==>
          c.last == applied[|applied| - 1].sequence && c.latest == Some(applied[|applied| - 1].state))
    && (forall k :: 0 <= k < |applied| ==> applied[k] in sent)
    && (forall j, k :: 0 <= j < k < |applied| ==> applied[j].sequence < applied[k].sequence)
  }

  ghost predicate ReplayInv(c: Client, replays: seq<Replay>) {
    && (forall j, k :: 0 <= j < k < |replays| ==> replays[j].ack <= replays[k].ack)
    && (forall k, i :: 0 <= k < |replays| && i in replays[k].inputs ==> i.sequence > replays[k].ack)
    && (forall k :: 0 <= k < |replays| ==> c.latest.Some? && replays[k].ack <= c.latest.value.lastInputSequence)
  }

  ghost predicate ClientInv(w: World, c: Client, inputs: seq<Input>) {
    c.prediction.next >= 1 && (c.prediction.active ==> Consistent(w, c.prediction, inputs))
  }

  ghost predicate Inv(w: World, s: System) {
    && WireInv(s.server, s.toServer) && SentInv(s.server, s.sent) && MadeInv(s.sent, s.makers)
    && InFlight(s.server, s.toClient, s.sent)
    && AppliedInv(s.client, s.sent, s.applied) && ReplayInv(s.client, s.replays) && ClientInv(w, s.client, s.inputs)
  }

  // ------------------------------------------------------------ the server's steps

  /** An input never takes the acknowledgement back, just when it has a number. */
  lemma InputsKeepOrder(p: Player, i: Input)
    ensures WithInput(p, i).input.sequence >= p.input.sequence <==> i.sequence >= 1 || p.input.sequence == 0
  {
  }

  lemma {:induction false} InputsArriveInOrder(p: Player, q: seq<Delayed<Input>>)
    requires forall k :: 0 <= k < |q| ==> q[k].item.sequence >= 1
    requires p.lastInputSequence <= p.input.sequence
    ensures WithInputs(p, q).lastInputSequence == p.lastInputSequence <= WithInputs(p, q).input.sequence
    ensures WithInputs(p, q).body == p.body
    decreases |q|
  {
    if q != [] { InputsArriveInOrder(WithInput(p, q[0].item), q[1..]); }
  }

  lemma TickKeeps(w: World, server: Server, toServer: set<Input>, toClient: set<Packet>, sent: seq<Packet>, now: real)
    requires WireInv(server, toServer) && SentInv(server, sent) && InFlight(server, toClient, sent)
    ensures var server', sent' := Stepped(w, server, now), if server.bound then sent + [Made(w, server)] else sent;
            WireInv(server', toServer) && SentInv(server', sent')
            && InFlight(server', toClient + Elements(SentAtOnce(w, server)), sent')
  {
    if server.bound {
      var made := Made(w, server);
      var sent' := sent + [made];
      assert sent'[|sent|] == made;
      forall p | p in sent ensures p in sent' {}
      assert made in sent';
    }
  }

  lemma TickKeepsMade(w: World, server: Server, sent: seq<Packet>, makers: seq<Player>)
    requires MadeInv(sent, makers)
    ensures MadeInv(sent + [Made(w, server)], makers + [Ticked(w, server.player)])
  {
  }

  lemma ReleaseKeeps(server: Server, toServer: set<Input>, toClient: set<Packet>, sent: seq<Packet>, now: real)
    requires WireInv(server, toServer) && SentInv(server, sent) && InFlight(server, toClient, sent)
    ensures var server' := Released(server, now);
            WireInv(server', toServer) && SentInv(server', sent)
            && InFlight(server', toClient + Elements(SentLate(server, now)), sent)
  {
    InputsArriveInOrder(server.player, server.delayedInputs[..Due(server.delayedInputs, now)]);
  }

  // ------------------------------------------------------------ the client's steps

  lemma {:induction false} UnacknowledgedAfter(pending: seq<Input>, first: nat, acked: nat)
    requires forall k :: 0 <= k < |pending| ==> pending[k].sequence == first + k
    ensures forall i :: i in Unacknowledged(pending, acked) ==> i.sequence > acked
    decreases |pending|
  {
    if pending != [] && pending[0].sequence <= acked { UnacknowledgedAfter(pending[1..], first + 1, acked); }
  }

  lemma ArrivalKeeps(s: System, p: Packet)
    requires SentInv(s.server, s.sent) && InFlight(s.server, s.toClient, s.sent) && p in s.toClient
    requires AppliedInv(s.client, s.sent, s.applied) && ReplayInv(s.client, s.replays)
    requires !Stale(s.client, p)
    ensures AppliedInv(Delivered(s.client, p), s.sent, s.applied + [p])
    ensures ReplayInv(Delivered(s.client, p), s.replays)
  {
    assert p in s.sent;
    if s.applied != [] {
      var q := s.applied[|s.applied| - 1];
      assert q in s.sent;
      assert s.sent[q.sequence] == q && s.sent[p.sequence] == p;
    }
  }

  lemma FrameKeepsClient(w: World, c: Client, inputs: seq<Input>)
    requires ClientInv(w, c, inputs)
    ensures ClientInv(w, Framed(w, c), if c.latest.Some? && !c.prediction.active then [] else inputs)
  {
    if Reconciles(c) {
      ReconcileConsistent(w, c.prediction, c.latest.value, inputs);
    } else if c.latest.Some? && !c.prediction.active {
      InitConsistent(w, c.latest.value.position);
    }
  }

  lemma FrameKeepsApplied(w: World, c: Client, sent: seq<Packet>, applied: seq<Packet>, replays: seq<Replay>)
    requires AppliedInv(c, sent, applied) && ReplayInv(c, replays)
    ensures AppliedInv(Framed(w, c), sent, applied) && ReplayInv(Framed(w, c), replays)
  {
    assert Framed(w, c).(prediction := c.prediction, reconciled := c.reconciled) == c;
  }

  lemma ReplayKeeps(c: Client, pending: seq<Input>, first: nat, replays: seq<Replay>)
    requires ReplayInv(c, replays) && Reconciles(c) && pending == c.prediction.pending
    requires forall k :: 0 <= k < |pending| ==> pending[k].sequence == first + k
    ensures ReplayInv(c, replays + [ReplayOf(c)])
  {
    UnacknowledgedAfter(pending, first, c.latest.value.lastInputSequence);
  }

  lemma FrameKeeps(w: World, s: System)
    requires Inv(w, s)
    ensures Inv(w, Next(w, s, Frame))
  {
    var c := s.client;
    FrameKeepsClient(w, c, s.inputs);
    var replays := Next(w, s, Frame).replays;
    if Reconciles(c) { ReplayKeeps(c, c.prediction.pending, |s.inputs| - |c.prediction.pending| + 1, s.replays); }
    FrameKeepsApplied(w, c, s.sent, s.applied, replays);
  }

  lemma ClientTickKeepsClient(w: World, c: Client, inputs: seq<Input>, i: Input)
    requires ClientInv(w, c, inputs) && i.sequence == c.prediction.next
    ensures ClientInv(w, c.(prediction := Predicted(w, c.prediction, i)), if c.prediction.active then inputs + [i] else inputs)
  {
    if c.prediction.active { PredictConsistent(w, c.prediction, i, inputs); }
  }

  lemma ClientTickKeepsApplied(c: Client, p: State, sent: seq<Packet>, applied: seq<Packet>, replays: seq<Replay>)
    requires AppliedInv(c, sent, applied) && ReplayInv(c, replays)
    ensures AppliedInv(c.(prediction := p), sent, applied) && ReplayInv(c.(prediction := p), replays)
  {
  }

  lemma ClientTickKeeps(w: World, s: System, intent: Input)
    requires Inv(w, s)
    ensures Inv(w, Next(w, s, ClientTick(intent)))
  {
    ClientTickKeepsClient(w, s.client, s.inputs, intent.(sequence := s.client.prediction.next));
    var t := Next(w, s, ClientTick(intent));
    ClientTickKeepsApplied(s.client, t.client.prediction, s.sent, s.applied, s.replays);
    assert WireInv(t.server, t.toServer);
  }

  lemma NextKeeps(w: World, s: System, e: Event)
    requires Inv(w, s) && Possible(s, e)
    ensures Inv(w, Next(w, s, e))
  {
    match e
    case Hello =>
    case Latency(_) =>
    case ClientTick(intent) => ClientTickKeeps(w, s, intent);
    case InputArrives(i, now) =>
    case ServerTick(now) => {
      TickKeeps(w, s.server, s.toServer, s.toClient, s.sent, now);
      TickKeepsMade(w, s.server, s.sent, s.makers);
    }
    case Release(now) => ReleaseKeeps(s.server, s.toServer, s.toClient, s.sent, now);
    case SnapshotArrives(p) => if !Stale(s.client, p) { ArrivalKeeps(s, p); }
    case Frame => FrameKeeps(w, s);
  }

  // ----------------------------------------------------------------- every run

  ghost predicate Reaches(w: World, s: System, events: seq<Event>, t: System)
    decreases |events|
  {
    if events == [] then s == t else Possible(s, events[0]) && Reaches(w, Next(w, s, events[0]), events[1..], t)
  }

  /** The ticks applied strictly increase; acknowledgements never go back; and nothing
      acknowledged, then or earlier, is ever replayed. */
  ghost predicate Safe(s: System) {
    && (forall j, k :: 0 <= j < k < |s.applied| ==> s.applied[j].tick < s.applied[k].tick)
    && (forall j, k :: 0 <= j <= k < |s.replays| ==> s.replays[j].ack <= s.replays[k].ack)
    && (forall j, k, i :: 0 <= j <= k < |s.replays| && i in s.replays[k].inputs ==> i.sequence > s.replays[j].ack)
  }

  lemma InvSafe(w: World, s: System)
    requires Inv(w, s)
    ensures Safe(s)
  {
  }

  lemma {:induction false} RunKeeps(w: World, s: System, events: seq<Event>, t: System)
    requires Inv(w, s) && Reaches(w, s, events, t)
    ensures Inv(w, t)
    decreases |events|
  {
    if events != [] {
      NextKeeps(w, s, events[0]);
      RunKeeps(w, Next(w, s, events[0]), events[1..], t);
    }
  }

  lemma EveryRunSafe(w: World, s: System, events: seq<Event>, t: System)
    requires Start(s) && Reaches(w, s, events, t)
    ensures Safe(t)
  {
    RunKeeps(w, s, events, t);
    InvSafe(w, t);
  }

  // ----------------------------------------------------------------- clean runs

  /** No input is sent before the prediction starts and begins numbering at 1. */
  ghost predicate Clean(w: World, s: System, events: seq<Event>)
    decreases |events|
  {
    events == [] || ((events[0].ClientTick? ==> s.client.prediction.active) && Clean(w, Next(w, s, events[0]), events[1..]))
  }

  /** The input is the one stepped under its number. */
  ghost predicate Known(i: Input, inputs: seq<Input>) { 1 <= i.sequence <= |inputs| && i == inputs[i.sequence - 1] }

  ghost predicate KnownClamped(i: Input, inputs: seq<Input>) {
    1 <= i.sequence <= |inputs| && i == Clamped(inputs[i.sequence - 1])
  }

  /** What the server has for the player and has not consumed yet is known. */
  ghost predicate PlayerKnows(p: Player, inputs: seq<Input>) {
    && p.lastInputSequence <= p.input.sequence <= |inputs|
    && (p.lastInputSequence < p.input.sequence ==> KnownClamped(p.input, inputs))
  }

  /** Only inputs stepped since the start of the prediction are about. */
  ghost predicate InputsKnown(server: Server, toServer: set<Input>, inputs: seq<Input>) {
    && (forall i :: i in toServer ==> Known(i, inputs))
    && (forall k :: 0 <= k < |server.delayedInputs| ==> KnownClamped(server.delayedInputs[k].item, inputs))
    && PlayerKnows(server.player, inputs)
  }

  ghost function LastAck(replays: seq<Replay>): nat { if replays == [] then 0 else replays[|replays| - 1].ack }

  /** Of n inputs the history has those after the acknowledged one, or is full. */
  ghost predicate ReachesBack(p: State, n: nat, ack: nat) {
    p.active && n - |p.pending| <= Max(ack, n - 256)
  }

  ghost predicate CleanInv(s: System) {
    var p := s.client.prediction;
    && InputsKnown(s.server, s.toServer, s.inputs)
    && (if p.active then ReachesBack(p, |s.inputs|, LastAck(s.replays)) else s.inputs == [] && s.replays == [])
  }

  lemma {:induction false} InputsArriveKnown(p: Player, q: seq<Delayed<Input>>, inputs: seq<Input>)
    requires forall k :: 0 <= k < |q| ==> KnownClamped(q[k].item, inputs)
    requires PlayerKnows(p, inputs)
    ensures PlayerKnows(WithInputs(p, q), inputs)
    decreases |q|
  {
    if q != [] { InputsArriveKnown(WithInput(p, q[0].item), q[1..], inputs); }
  }

  lemma StillKnown(server: Server, toServer: set<Input>, inputs: seq<Input>, i: Input)
    requires InputsKnown(server, toServer, inputs) && i.sequence == |inputs| + 1
    ensures InputsKnown(server, toServer + {i}, inputs + [i])
  {
  }

  lemma TickReachesBack(w: World, p: State, i: Input, n: nat, ack: nat)
    requires ReachesBack(p, n, ack)
    ensures ReachesBack(Predicted(w, p, i), n + 1, ack) && Predicted(w, p, i).next == p.next + 1
  {
  }

  lemma ReconcileReachesBack(w: World, p: State, a: Authority, applied: seq<Input>, ack: nat)
    requires Consistent(w, p, applied) && ReachesBack(p, |applied|, ack) && ack <= a.lastInputSequence
    ensures ReachesBack(Reconciled(w, p, a), |applied|, a.lastInputSequence) && Reconciled(w, p, a).next == p.next
  {
    PendingAfter(w, p, applied, a.lastInputSequence);
  }

  lemma CleanFrame(w: World, s: System)
    requires Inv(w, s) && CleanInv(s)
    ensures CleanInv(Next(w, s, Frame))
  {
    if Reconciles(s.client) {
      ReconcileReachesBack(w, s.client.prediction, s.client.latest.value, s.inputs, LastAck(s.replays));
    }
  }

  lemma CleanClientTick(w: World, s: System, intent: Input)
    requires Inv(w, s) && CleanInv(s) && s.client.prediction.active
    ensures CleanInv(Next(w, s, ClientTick(intent)))
  {
    var p := s.client.prediction;
    StillKnown(s.server, s.toServer, s.inputs, intent.(sequence := p.next));
    TickReachesBack(w, p, intent.(sequence := p.next), |s.inputs|, LastAck(s.replays));
  }

  lemma CleanRelease(w: World, s: System, now: real)
    requires CleanInv(s)
    ensures CleanInv(Next(w, s, Release(now)))
  {
    InputsArriveKnown(s.server.player, s.server.delayedInputs[..Due(s.server.delayedInputs, now)], s.inputs);
  }

  lemma CleanArrival(w: World, s: System, i: Input, now: real)
    requires CleanInv(s) && i in s.toServer
    ensures CleanInv(Next(w, s, InputArrives(i, now)))
  {
  }

  lemma CleanServerTick(w: World, s: System, now: real)
    requires CleanInv(s)
    ensures CleanInv(Next(w, s, ServerTick(now)))
  {
  }

  lemma CleanNext(w: World, s: System, e: Event)
    requires Inv(w, s) && CleanInv(s) && Possible(s, e) && (e.ClientTick? ==> s.client.prediction.active)
    ensures CleanInv(Next(w, s, e))
  {
    match e
    case Hello =>
    case Latency(_) =>
    case ClientTick(intent) => CleanClientTick(w, s, intent);
    case InputArrives(i, now) => CleanArrival(w, s, i, now);
    case ServerTick(now) => CleanServerTick(w, s, now);
    case Release(now) => CleanRelease(w, s, now);
    case SnapshotArrives(_) =>
    case Frame => CleanFrame(w, s);
  }

  lemma {:induction false} CleanRun(w: World, s: System, events: seq<Event>, t: System)
    requires Inv(w, s) && CleanInv(s) && Reaches(w, s, events, t) && Clean(w, s, events)
    ensures Inv(w, t) && CleanInv(t)
    decreases |events|
  {
    if events != [] {
      NextKeeps(w, s, events[0]);
      CleanNext(w, s, events[0]);
      CleanRun(w, Next(w, s, events[0]), events[1..], t);
    }
  }

  // --------------------------------------------- prediction comes true, on any run

  /** What the server makes of inputs that reach it one a tick, in order. */
  ghost function Consumed(w: World, p: Player, inputs: seq<Input>): Player
    decreases |inputs|
  {
    if inputs == [] then p else Consumed(w, Ticked(w, WithInput(p, Clamped(inputs[0]))), inputs[1..])
  }

  ghost predicate WithinStick(i: Input) { -1.0 <= i.moveForward <= 1.0 && -1.0 <= i.moveRight <= 1.0 }

  lemma {:induction false} ConsumedIsServed(w: World, p: Player, inputs: seq<Input>)
    requires forall k :: 0 <= k < |inputs| ==> WithinStick(inputs[k])
    ensures Consumed(w, p, inputs) == Served(w, p, inputs)
    decreases |inputs|
  {
    if inputs != [] {
      assert Clamped(inputs[0]) == inputs[0];
      ConsumedIsServed(w, Ticked(w, WithInput(p, inputs[0])), inputs[1..]);
    }
  }

  lemma AckInHistory(w: World, s: System)
    requires Inv(w, s) && CleanInv(s) && Reconciles(s.client)
    ensures var ack, n := s.client.latest.value.lastInputSequence, |s.inputs|;
            ack <= n && n - |s.client.prediction.pending| <= Max(ack, n - 256)
  {
    assert s.applied[|s.applied| - 1] in s.sent;
  }

  /** On a clean run no snapshot acknowledges more than has been stepped, and the history
      reaches back to it unless it is more than 256 inputs old. */
  lemma AckWithinHistory(w: World, s: System, events: seq<Event>, t: System)
    requires Start(s) && Reaches(w, s, events, t) && Clean(w, s, events) && Reconciles(t.client)
    ensures var ack, n := t.client.latest.value.lastInputSequence, |t.inputs|;
            ack <= n && n - |t.client.prediction.pending| <= Max(ack, n - 256)
  {
    CleanRun(w, s, events, t);
    AckInHistory(w, t);
  }

  /** The server's player that the last packet applied was made of. */
  ghost predicate Maker(s: System, player: Player) {
    && s.applied != []
    && (var k := s.applied[|s.applied| - 1].sequence;
        k < |s.sent| && k < |s.makers| && s.sent[k] == s.applied[|s.applied| - 1] && s.makers[k] == player)
  }

  lemma MakerDescribed(w: World, s: System) returns (player: Player)
    requires Inv(w, s) && s.client.latest.Some?
    ensures Maker(s, player) && StateOf(player).state == s.client.latest.value
    ensures player.input.sequence == player.lastInputSequence
  {
    var packet := s.applied[|s.applied| - 1];
    assert packet in s.sent;
    player := s.makers[packet.sequence];
  }

  /** The client is about to reconcile with a packet that is within the kept history, has
      the ground flag of the player it was made of, and only full-stick inputs were made. */
  ghost predicate InTime(s: System, player: Player) {
    && Reconciles(s.client) && Maker(s, player)
    && player.body.grounded == s.client.prediction.body.grounded
    && |s.inputs| <= player.lastInputSequence + 256
    && (forall k :: 0 <= k < |s.inputs| ==> WithinStick(s.inputs[k]))
  }

  lemma FrameReplays(w: World, s: System, player: Player)
    requires Inv(w, s) && CleanInv(s) && InTime(s, player)
    ensures player.lastInputSequence == player.input.sequence <= |s.inputs|
    ensures SameMotion(Framed(w, s.client).prediction.body,
                       Run(w, player.body, s.inputs[player.lastInputSequence..]))
  {
    AckInHistory(w, s);
    var maker := MakerDescribed(w, s);
    PredictionComesTrue(w, s.client.prediction, s.client.latest.value, s.inputs, player.body);
  }

  /** On any clean run, however late the snapshot, reconciling puts the client where the
      server's player the snapshot was made of will be when it has consumed everything
      sent since. */
  lemma SnapshotComesTrue(w: World, s: System, events: seq<Event>, t: System, player: Player)
    requires Start(s) && Reaches(w, s, events, t) && Clean(w, s, events) && InTime(t, player)
    ensures player.lastInputSequence <= |t.inputs|
    ensures SameMotion(Framed(w, t.client).prediction.body,
                       Consumed(w, player, t.inputs[player.lastInputSequence..]).body)
  {
    CleanRun(w, s, events, t);
    FrameReplays(w, t, player);
    WillBe(w, t, player);
  }

  lemma WillBe(w: World, s: System, player: Player)
    requires Inv(w, s) && s.client.prediction.active
    requires player.lastInputSequence == player.input.sequence <= |s.inputs|
    requires forall k :: 0 <= k < |s.inputs| ==> WithinStick(s.inputs[k])
    ensures Consumed(w, player, s.inputs[player.lastInputSequence..]).body
         == Run(w, player.body, s.inputs[player.lastInputSequence..])
  {
    var k := player.lastInputSequence;
    ConsumedIsServed(w, player, s.inputs[k..]);
    ServedRuns(w, player, s.inputs[k..], k + 1);
  }

  // ------------------------------------------- and the server does get there

  /** Every server tick of the run consumes the next input: each once and in order. */
  ghost predicate InOrder(w: World, s: System, events: seq<Event>)
    decreases |events|
  {
    events == []
    || ((events[0].ServerTick? ==> s.server.player.input.sequence == s.server.player.lastInputSequence + 1)
        && InOrder(w, Next(w, s, events[0]), events[1..]))
  }

  lemma TickServes(w: World, p: Player, inputs: seq<Input>)
    requires PlayerKnows(p, inputs) && p.input.sequence == p.lastInputSequence + 1
    ensures p.lastInputSequence < |inputs| && Ticked(w, p).lastInputSequence == p.lastInputSequence + 1
    ensures Ticked(w, p).body == Step(w, p.body, Clamped(inputs[p.lastInputSequence]))
  {
  }

  /** What one event does to the server's character. */
  lemma BodyAfter(w: World, s: System, e: Event)
    requires Inv(w, s) && CleanInv(s) && Possible(s, e) && (e.ClientTick? ==> s.client.prediction.active)
    requires e.ServerTick? ==> s.server.player.input.sequence == s.server.player.lastInputSequence + 1
    ensures var p, q := s.server.player, Next(w, s, e).server.player;
            if e.ServerTick? then
              && p.lastInputSequence < |s.inputs| && q.lastInputSequence == p.lastInputSequence + 1
              && q.body == Step(w, p.body, Clamped(s.inputs[p.lastInputSequence]))
            else q.body == p.body && q.lastInputSequence == p.lastInputSequence
    ensures s.inputs <= Next(w, s, e).inputs
  {
    match e
    case ServerTick(_) => TickServes(w, s.server.player, s.inputs);
    case Release(now) => InputsArriveInOrder(s.server.player, s.server.delayedInputs[..Due(s.server.delayedInputs, now)]);
    case _ =>
  }

  lemma FirstServed(w: World, b: Body, inputs: seq<Input>, k: nat, end: nat)
    requires k < end <= |inputs| && WithinStick(inputs[k])
    ensures Run(w, Step(w, b, Clamped(inputs[k])), inputs[k + 1..end]) == Run(w, b, inputs[k..end])
  {
    assert inputs[k..end][1..] == inputs[k + 1..end];
  }

  lemma ServedOne(w: World, s: System, e: Event, inputs: seq<Input>, end: nat)
    requires Inv(w, s) && CleanInv(s) && Possible(s, e) && (e.ClientTick? ==> s.client.prediction.active)
    requires e.ServerTick? ==> s.server.player.input.sequence == s.server.player.lastInputSequence + 1
    requires forall k :: 0 <= k < |inputs| ==> WithinStick(inputs[k])
    requires Next(w, s, e).inputs <= inputs && Next(w, s, e).server.player.lastInputSequence <= end <= |inputs|
    ensures s.inputs <= inputs && s.server.player.lastInputSequence <= end
    ensures var q := Next(w, s, e).server.player;
            Run(w, q.body, inputs[q.lastInputSequence..end])
            == Run(w, s.server.player.body, inputs[s.server.player.lastInputSequence..end])
  {
    BodyAfter(w, s, e);
    if e.ServerTick? { FirstServed(w, s.server.player.body, inputs, s.server.player.lastInputSequence, end); }
  }

  /** Over a run that serves in order the server's character takes exactly the inputs it
      counts. */
  lemma {:induction false} ServedAlong(w: World, s: System, events: seq<Event>, t: System)
    requires Inv(w, s) && CleanInv(s) && Reaches(w, s, events, t) && Clean(w, s, events) && InOrder(w, s, events)
    requires forall k :: 0 <= k < |t.inputs| ==> WithinStick(t.inputs[k])
    ensures s.inputs <= t.inputs
    ensures s.server.player.lastInputSequence <= t.server.player.lastInputSequence <= |t.inputs|
    ensures t.server.player.body
         == Run(w, s.server.player.body, t.inputs[s.server.player.lastInputSequence..t.server.player.lastInputSequence])
    decreases |events|
  {
    if events != [] {
      var e, s' := events[0], Next(w, s, events[0]);
      NextKeeps(w, s, e);
      CleanNext(w, s, e);
      ServedAlong(w, s', events[1..], t);
      ServedOne(w, s, e, t.inputs, t.server.player.lastInputSequence);
    }
  }

  lemma {:induction false} RunOn(w: World, b: Body, first: seq<Input>, more: seq<Input>)
    ensures Run(w, b, first + more) == Run(w, Run(w, b, first), more)
    decreases |first|
  {
    if first == [] {
      assert first + more == more;
    } else {
      assert (first + more)[1..] == first[1..] + more;
      RunOn(w, Step(w, b, first[0]), first[1..], more);
    }
  }

  lemma PrefixWithinStick(inputs: seq<Input>, more: seq<Input>)
    requires inputs <= more && forall k :: 0 <= k < |more| ==> WithinStick(more[k])
    ensures forall k :: 0 <= k < |inputs| ==> WithinStick(inputs[k])
  {
    forall k | 0 <= k < |inputs| ensures WithinStick(inputs[k]) { assert inputs[k] == more[k]; }
  }

  lemma SamePart(inputs: seq<Input>, more: seq<Input>, i: nat, j: nat)
    requires inputs <= more && i <= j <= |inputs|
    ensures more[i..j] == inputs[i..j]
  {
  }

  lemma ServedOn(w: World, m: System, between: seq<Event>, t: System, after: seq<Event>, u: System)
    requires Inv(w, m) && CleanInv(m) && Inv(w, t) && CleanInv(t)
    requires Reaches(w, m, between, t) && Clean(w, m, between) && InOrder(w, m, between)
    requires Reaches(w, t, after, u) && Clean(w, t, after) && InOrder(w, t, after)
    requires u.server.player.lastInputSequence == |t.inputs|
    requires forall k :: 0 <= k < |u.inputs| ==> WithinStick(u.inputs[k])
    ensures t.inputs <= u.inputs && m.server.player.lastInputSequence <= |t.inputs|
    ensures u.server.player.body == Run(w, m.server.player.body, t.inputs[m.server.player.lastInputSequence..])
  {
    ServedAlong(w, t, after, u);
    PrefixWithinStick(t.inputs, u.inputs);
    ServedAlong(w, m, between, t);
    var i, j := m.server.player.lastInputSequence, t.server.player.lastInputSequence;
    SamePart(t.inputs, u.inputs, j, |t.inputs|);
    Joined(w, m.server.player.body, t.inputs, i, j);
  }

  lemma Joined(w: World, b: Body, inputs: seq<Input>, i: nat, j: nat)
    requires i <= j <= |inputs|
    ensures Run(w, Run(w, b, inputs[i..j]), inputs[j..|inputs|]) == Run(w, b, inputs[i..])
  {
    RunOn(w, b, inputs[i..j], inputs[j..|inputs|]);
    assert inputs[i..j] + inputs[j..|inputs|] == inputs[i..];
  }

  /** Predict and acknowledge meet. A packet is made in m; it reaches the client, however
      late, in t, which reconciles; and the server goes on to u, where it has consumed all
      that the client had stepped in t, each input once and in order, while the client steps
      on. Then the client was, in t, where the server is in u. */
  lemma PredictionMeetsServer(w: World, s: System, before: seq<Event>, m: System, between: seq<Event>, t: System,
                              after: seq<Event>, u: System)
    requires Start(s) && Reaches(w, s, before, m) && Reaches(w, m, between, t) && Reaches(w, t, after, u)
    requires Clean(w, s, before) && Clean(w, m, between) && Clean(w, t, after)
    requires InOrder(w, m, between) && InOrder(w, t, after)
    requires InTime(t, m.server.player) && u.server.player.lastInputSequence == |t.inputs|
    requires forall k :: 0 <= k < |u.inputs| ==> WithinStick(u.inputs[k])
    ensures SameMotion(Framed(w, t.client).prediction.body, u.server.player.body)
  {
    CleanRun(w, s, before, m);
    CleanRun(w, m, between, t);
    FrameReplays(w, t, m.server.player);
    ServedOn(w, m, between, t, after, u);
  }
}

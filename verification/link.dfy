/** The two ends of the UDP link, for one player: the world server's main loop with its
    delay queues, and the client's snapshot acceptance with the application's frame. */
module Link {
  import opened Common
  import opened Character
  import opened Prediction
  import opened Simulation

  /** A snapshot datagram: its header's sequence number, and what the player's own
      entity is in it. */
  datatype Packet = Packet(sequence: nat, tick: nat, state: Authority)

  datatype Delayed<T> = Delayed(dueAt: real, item: T)

  // ----------------------------------------------------------- world server

  datatype Server = Server(player: Player, tick: nat, bound: bool, outgoing: nat, latency: nat,
                           delayedInputs: seq<Delayed<Input>>, delayedOutgoing: seq<Delayed<Packet>>)

  function Clamp(x: real): real { if x < -1.0 then -1.0 else if x > 1.0 then 1.0 else x }

  /** Whatever a client sends, no stick goes further than to its end. */
  function Clamped(i: Input): Input { i.(moveForward := Clamp(i.moveForward), moveRight := Clamp(i.moveRight)) }

  function DueAt(now: real, latency: nat): real { now + latency as real / 1000.0 }

  function Arrived(s: Server, i: Input, now: real): Server {
    if !s.bound then s
    else if s.latency > 0 then
      s.(delayedInputs := s.delayedInputs + [Delayed(DueAt(now, s.latency), Clamped(i))])
    else s.(player := WithInput(s.player, Clamped(i)))
  }

  /** The packet a tick makes. */
  function Made(w: World, s: Server): Packet {
    Packet(s.outgoing, s.tick + 1, StateOf(Ticked(w, s.player)).state)
  }

  function Stepped(w: World, s: Server, now: real): Server {
    var t := s.(player := Ticked(w, s.player), tick := s.tick + 1);
    if !s.bound then t
    else if s.latency > 0 then
      t.(outgoing := s.outgoing + 1, delayedOutgoing := s.delayedOutgoing + [Delayed(DueAt(now, s.latency), Made(w, s))])
    else t.(outgoing := s.outgoing + 1)
  }

  function SentAtOnce(w: World, s: Server): seq<Packet> {
    if s.bound && s.latency == 0 then [Made(w, s)] else []
  }

  /** How many at the front are due. */
  function Due<T>(q: seq<Delayed<T>>, now: real): (n: nat)
    ensures n <= |q|
  {
    if q != [] && q[0].dueAt <= now then 1 + Due(q[1..], now) else 0
  }

  function Items<T>(q: seq<Delayed<T>>): (r: seq<T>)
    ensures |r| == |q| && forall k :: 0 <= k < |q| ==> r[k] == q[k].item
  {
    seq(|q|, k requires 0 <= k < |q| => q[k].item)
  }

  function WithInputs(p: Player, q: seq<Delayed<Input>>): Player
    decreases |q|
  {
    if q == [] then p else WithInputs(WithInput(p, q[0].item), q[1..])
  }

  function Released(s: Server, now: real): Server {
    var i, o := Due(s.delayedInputs, now), Due(s.delayedOutgoing, now);
    s.(player := WithInputs(s.player, s.delayedInputs[..i]), delayedInputs := s.delayedInputs[i..],
       delayedOutgoing := s.delayedOutgoing[o..])
  }

  function SentLate(s: Server, now: real): seq<Packet> {
    Items(s.delayedOutgoing[..Due(s.delayedOutgoing, now)])
  }

  // ------------------------------------------------------- what they amount to

  /** A stick is taken to the nearest position it can have. */
  lemma ClampIsNearest(x: real, y: real)
    requires -1.0 <= y <= 1.0
    ensures -1.0 <= Clamp(x) <= 1.0 && Abs(x - Clamp(x)) <= Abs(x - y)
  {
  }

  /** An input of the bound player takes effect after exactly the latency, as the nearest one
      that its sticks allow: not before, and then at once. */
  lemma InputAfterLatency(s: Server, i: Input, now: real, later: real)
    requires s.bound && s.delayedInputs == []
    ensures var a := Released(Arrived(s, i, now), later);
            var sticks := i.(moveForward := Clamp(i.moveForward), moveRight := Clamp(i.moveRight));
            if s.latency == 0 || (later - now) * 1000.0 >= s.latency as real
            then a.player == WithInput(s.player, sticks) && a.delayedInputs == []
            else a.player == s.player && |a.delayedInputs| == 1
  {
    var t := Arrived(s, i, now);
    if s.latency > 0 {
      var q := t.delayedInputs;
      assert q == [Delayed(DueAt(now, s.latency), Clamped(i))];
      assert q[1..] == [] && q[..0] == [] && q[..1] == q && q[0..] == q;
      assert Due(q, later) == if q[0].dueAt <= later then 1 else 0;
      assert WithInputs(s.player, q) == WithInputs(WithInput(s.player, q[0].item), []);
    }
  }

  /** So does a snapshot of the bound player: it is sent once, under the next number, after
      exactly the latency. */
  lemma PacketAfterLatency(w: World, s: Server, now: real, later: real)
    requires s.bound && s.delayedOutgoing == []
    ensures var t := Stepped(w, s, now);
            var ticked := Ticked(w, s.player);
            var state := Authority(ticked.body.position, ticked.body.velocity, ticked.lastInputSequence);
            && t.outgoing == s.outgoing + 1
            && SentAtOnce(w, s) == (if s.latency == 0 then [Packet(s.outgoing, s.tick + 1, state)] else [])
            && SentLate(t, later) == (if s.latency > 0 && (later - now) * 1000.0 >= s.latency as real
                                      then [Packet(s.outgoing, s.tick + 1, state)] else [])
  {
    var t := Stepped(w, s, now);
    if s.latency > 0 {
      var q := t.delayedOutgoing;
      assert q == [Delayed(DueAt(now, s.latency), Made(w, s))];
      assert q[1..] == [] && q[..0] == [] && q[..1] == q;
      assert Due(q, later) == if q[0].dueAt <= later then 1 else 0;
      assert Items(q) == [Made(w, s)] && Items(q[..0]) == [];
    }
  }

  /** A player that has not said hello is neither heard nor sent to. */
  lemma UnboundIsLeftAlone(w: World, s: Server, i: Input, now: real)
    requires !s.bound
    ensures Arrived(s, i, now) == s && SentAtOnce(w, s) == []
    ensures var t := Stepped(w, s, now); t.delayedOutgoing == s.delayedOutgoing && t.outgoing == s.outgoing
  {
  }

  /** What goes on its way is the front of a queue that is due, and the next is not due. */
  lemma {:induction false} DueIsDue<T>(q: seq<Delayed<T>>, now: real)
    ensures forall k :: 0 <= k < Due(q, now) ==> q[k].dueAt <= now
    ensures Due(q, now) < |q| ==> q[Due(q, now)].dueAt > now
  {
    if q != [] && q[0].dueAt <= now {
      DueIsDue(q[1..], now);
      assert forall k :: 0 < k < Due(q, now) ==> q[k] == q[1..][k - 1];
    }
  }

  class WorldLoop {
    const playerId: nat
    var player: Player
    var tick: nat
    var udpBound: bool
    var outgoingSequence: nat
    var simulatedLatencyMs: nat
    var delayedInputs: seq<Delayed<Input>>
    var delayedOutgoing: seq<Delayed<Packet>>

    constructor (playerId: nat, player: Player, tick: nat, simulatedLatencyMs: nat)
      ensures this.playerId == playerId
      ensures Now() == Server(player, tick, false, 0, simulatedLatencyMs, [], [])
    {
      this.playerId, this.player, this.tick, this.simulatedLatencyMs := playerId, player, tick, simulatedLatencyMs;
      udpBound, outgoingSequence := false, 0;
      delayedInputs, delayedOutgoing := [], [];
    }

    ghost function Now(): Server
      reads this
    {
      Server(player, tick, udpBound, outgoingSequence, simulatedLatencyMs, delayedInputs, delayedOutgoing)
    }

    /** An input from the address bound to the player. One that does not decode, or claims
        another player's id, changes nothing. */
    method HandleInput(claimedId: nat, decodes: bool, input: Input, now: real)
      modifies this
      ensures Now() == if decodes && claimedId == playerId then Arrived(old(Now()), input, now) else old(Now())
    {
      if !udpBound { return; }
      if !decodes || claimedId != playerId { return; }
      var clamped := input.(moveForward := Clamp(input.moveForward), moveRight := Clamp(input.moveRight));
      if simulatedLatencyMs > 0 {
        delayedInputs := delayedInputs + [Delayed(DueAt(now, simulatedLatencyMs), clamped)];
      } else {
        player := WithInput(player, clamped);
      }
    }

    method Tick(w: World, now: real) returns (sent: seq<Packet>)
      modifies this
      ensures Now() == Stepped(w, old(Now()), now) && sent == SentAtOnce(w, old(Now()))
    {
      sent := [];
      player := TickPlayer(w, player);
      tick := tick + 1;
      if !udpBound { return; }
      var packet := Packet(outgoingSequence, tick, StateOf(player).state);
      outgoingSequence := outgoingSequence + 1;
      if simulatedLatencyMs > 0 {
        delayedOutgoing := delayedOutgoing + [Delayed(DueAt(now, simulatedLatencyMs), packet)];
      } else {
        sent := [packet];
      }
    }

    /** What is due at the front of the two delay queues goes on its way. */
    method Release(now: real) returns (sent: seq<Packet>)
      modifies this
      ensures Now() == Released(old(Now()), now) && sent == SentLate(old(Now()), now)
    {
      ReleaseInputs(now);
      sent := ReleasePackets(now);
    }

    method ReleaseInputs(now: real)
      modifies this`player, this`delayedInputs
      ensures var q := old(delayedInputs); var n := Due(q, now);
              player == WithInputs(old(player), q[..n]) && delayedInputs == q[n..]
    {
      ghost var n, d := Due(delayedInputs, now), Due(delayedInputs, now);
      while delayedInputs != [] && delayedInputs[0].dueAt <= now
        invariant d == Due(delayedInputs, now) <= n && delayedInputs == old(delayedInputs)[n - d..]
        invariant WithInputs(player, delayedInputs[..d]) == WithInputs(old(player), old(delayedInputs)[..n])
        decreases |delayedInputs|
      {
        assert delayedInputs[..d][1..] == delayedInputs[1..][..d - 1];
        player := WithInput(player, delayedInputs[0].item);
        delayedInputs, d := delayedInputs[1..], d - 1;
      }
    }

    method ReleasePackets(now: real) returns (sent: seq<Packet>)
      modifies this`delayedOutgoing
      ensures var q := old(delayedOutgoing); var n := Due(q, now);
              sent == Items(q[..n]) && delayedOutgoing == q[n..]
    {
      sent := [];
      ghost var n := Due(delayedOutgoing, now);
      while delayedOutgoing != [] && delayedOutgoing[0].dueAt <= now
        invariant |sent| + Due(delayedOutgoing, now) == n && delayedOutgoing == old(delayedOutgoing)[|sent|..]
        invariant sent == Items(old(delayedOutgoing)[..|sent|])
        decreases |delayedOutgoing|
      {
        sent := sent + [delayedOutgoing[0].item];
        delayedOutgoing := delayedOutgoing[1..];
      }
    }
  }

  // ----------------------------------------------------------------- client

  datatype Client = Client(prediction: State, received: nat, last: nat, latest: Option<Authority>, reconciled: nat)

  /** Not newer than the last snapshot applied. */
  predicate Stale(c: Client, p: Packet) { c.received > 0 && p.sequence <= c.last }

  function Delivered(c: Client, p: Packet): Client {
    if Stale(c, p) then c else c.(received := c.received + 1, last := p.sequence, latest := Some(p.state))
  }

  /** The first state seen starts the prediction; later ones are reconciled with, each once. */
  ghost function Framed(w: World, c: Client): Client {
    if c.latest.None? then c
    else if !c.prediction.active then c.(prediction := Initial(c.latest.value.position))
    else if c.received == c.reconciled then c
    else c.(reconciled := c.received, prediction := Reconciled(w, c.prediction, c.latest.value))
  }

  /** A snapshot newer than the last is reconciled with at the next frame, unless its count
      is the one last reconciled at, and only once. */
  lemma FreshIsReconciled(w: World, c: Client, p: Packet)
    requires c.prediction.active && (c.received == 0 || p.sequence > c.last) && c.received + 1 != c.reconciled
    ensures var d := Delivered(c, p); var f := Framed(w, d);
            && d.prediction == c.prediction && f.prediction == Reconciled(w, c.prediction, p.state)
            && Framed(w, f) == f && Delivered(f, p) == f
  {
  }

  /** The first one starts the prediction where it says, and is not reconciled with. */
  lemma FirstStarts(w: World, c: Client, p: Packet)
    requires !c.prediction.active && c.received == 0
    ensures var f := Framed(w, Delivered(c, p));
            f.prediction.active && Rendered(f.prediction) == p.state.position && f.reconciled == c.reconciled
  {
  }

  class NetClient {
    const prediction: Prediction
    var snapshotsReceived: nat
    var lastSnapshotSequence: nat
    var own: Option<Authority>
    var lastReconciledSnapshot: nat

    constructor (prediction: Prediction)
      ensures this.prediction == prediction
      ensures Now() == Client(prediction.Now(), 0, 0, None, 0)
    {
      this.prediction := prediction;
      snapshotsReceived, lastSnapshotSequence, own, lastReconciledSnapshot := 0, 0, None, 0;
    }

    ghost function Now(): Client
      reads this, prediction, prediction.character
    {
      Client(prediction.Now(), snapshotsReceived, lastSnapshotSequence, own, lastReconciledSnapshot)
    }

    /** A datagram whose body does not decode changes nothing. */
    method HandleSnapshot(packet: Packet, decodes: bool)
      modifies this
      ensures Now() == if decodes then Delivered(old(Now()), packet) else old(Now())
    {
      if snapshotsReceived > 0 && packet.sequence <= lastSnapshotSequence { return; }
      if !decodes { return; }
      own := Some(packet.state);
      lastSnapshotSequence := packet.sequence;
      snapshotsReceived := snapshotsReceived + 1;
    }

    /** With the own player known: starts or corrects the prediction, and gives the place to
        draw the character at. */
    method Frame(w: World) returns (drawn: Option<Vec3>)
      modifies this, prediction, prediction.character
      ensures Now() == Framed(w, old(Now()))
      ensures drawn == if own.None? then None else Some(Rendered(Now().prediction))
    {
      if own.None? { return None; }
      if !prediction.active {
        prediction.Init(own.value.position);
      } else if snapshotsReceived != lastReconciledSnapshot {
        lastReconciledSnapshot := snapshotsReceived;
        prediction.Reconcile(w, own.value);
      }
      drawn := Some(prediction.RenderPosition());
    }
  }
}

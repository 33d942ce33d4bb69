/** Who is in the world: the connections, the two player tables and the bodies
    (`main` of the world server, with `serverutil::TcpServer`'s deferred close). */
module PlayerTables {
  import opened Common
  import opened Character
  import opened Simulation

  type Address = nat
  type Token = seq<byte>

  datatype Member = Member(playerId: nat, token: Token, udpBound: bool, udpAddress: Address,
                           outgoingSequence: nat, lastUdpPacket: real)

  /** A join whose session is being looked up. */
  datatype Join = Join(connection: nat, token: Token)

  /** `greetings` are the addresses and tokens of all hellos, `streamed` those of all
      snapshots. */
  datatype State = State(players: map<nat, Member>, byPlayer: map<nat, nat>, bodies: set<nat>, nextPlayer: nat,
                         connections: set<nat>, nextConnection: nat, closing: seq<nat>, joins: seq<Join>,
                         greetings: set<(Address, Token)>, streamed: set<(Address, Token)>)

  // ------------------------------------------------------- what the calls do

  function Removed(s: State, c: nat): State {
    if c !in s.players then s
    else
      var id := s.players[c].playerId;
      s.(players := s.players - {c}, byPlayer := s.byPlayer - {id}, bodies := s.bodies - {id})
  }

  /** Each removed, and its connection to be closed. */
  function Dropped(s: State, cs: seq<nat>): State
    decreases |cs|
  {
    if cs == [] then s else Dropped(DroppedOne(s, cs[0]), cs[1..])
  }

  function DroppedOne(s: State, c: nat): State {
    var r := Removed(s, c);
    r.(closing := r.closing + [c])
  }

  /** A session was found. A connection that has a player already keeps it. */
  function Joined(s: State, j: Join, now: real): State {
    var member := Member(s.nextPlayer, j.token, false, 0, 0, now);
    s.(nextPlayer := s.nextPlayer + 1, byPlayer := s.byPlayer[s.nextPlayer := j.connection],
       players := if j.connection in s.players then s.players else s.players[j.connection := member],
       bodies := s.bodies + {s.nextPlayer})
  }

  function WithoutJoin(s: State, k: nat): State
    requires k < |s.joins|
  {
    s.(joins := s.joins[..k] + s.joins[k + 1..])
  }

  /** The token is that of the player named. */
  predicate Welcome(s: State, id: nat, token: Token) {
    id in s.byPlayer && s.byPlayer[id] in s.players && s.players[s.byPlayer[id]].token == token
  }

  function Greeted(s: State, from: Address, id: nat, token: Token, now: real): State {
    var heard := s.(greetings := s.greetings + {(from, token)});
    if !Welcome(s, id, token) then heard
    else
      var c := s.byPlayer[id];
      heard.(players := s.players[c := s.players[c].(udpBound := true, udpAddress := from, lastUdpPacket := now)])
  }

  function Streamed(m: Member): Member { if m.udpBound then m.(outgoingSequence := m.outgoingSequence + 1) else m }

  function Receivers(players: map<nat, Member>): set<(Address, Token)> {
    set c | c in players && players[c].udpBound :: (players[c].udpAddress, players[c].token)
  }

  function SnapshotsSent(s: State): State {
    s.(players := map c | c in s.players :: Streamed(s.players[c]), streamed := s.streamed + Receivers(s.players))
  }

  predicate Silent(m: Member, deadline: real) { m.udpBound && m.lastUdpPacket < deadline }

  // ---------------------------------------------------------------- all events

  datatype Event =
    | Accept
    | JoinRequest(connection: nat, token: Token)
    | Lookup(k: nat, found: bool, now: real)
    | Logout(connection: nat)
    | Close(connection: nat)
    | FinishClosing
    | Hello(from: Address, playerId: nat, token: Token, now: real)
    | Packet(from: Address, connection: nat, now: real)
    | Tick
    | DropSilent(silent: seq<nat>, deadline: real)

  /** Messages come from live connections; any lookup in flight may be answered next; a
      datagram's sender is found by its address; the silent are exactly the overdue. */
  ghost predicate Possible(s: State, e: Event) {
    match e
    case JoinRequest(c, _) => c in s.connections
    case Lookup(k, _, _) => k < |s.joins|
    case Logout(c) => c in s.connections
    case Close(c) => c in s.connections
    case Packet(from, c, _) => c in s.players && s.players[c].udpBound && s.players[c].udpAddress == from
    case DropSilent(silent, deadline) => forall c :: c in silent <==> c in s.players && Silent(s.players[c], deadline)
    case _ => true
  }

  function Next(s: State, e: Event): State {
    match e
    case Accept => s.(connections := s.connections + {s.nextConnection}, nextConnection := s.nextConnection + 1)
    case JoinRequest(c, token) => if c in s.players then s else s.(joins := s.joins + [Join(c, token)])
    case Lookup(k, found, now) =>
      if k >= |s.joins| then s
      else if found then Joined(WithoutJoin(s, k), s.joins[k], now) else WithoutJoin(s, k)
    case Logout(c) => Removed(s, c)
    case Close(c) => s.(closing := s.closing + [c])
    case FinishClosing => Closed(s, s.closing).(closing := [])
    case Hello(from, id, token, now) => Greeted(s, from, id, token, now)
    case Packet(_, c, now) => if c in s.players then s.(players := s.players[c := s.players[c].(lastUdpPacket := now)]) else s
    case Tick => SnapshotsSent(s)
    case DropSilent(silent, _) => Dropped(s, silent)
  }

  /** The deferred closes, each only once. */
  function Closed(s: State, closing: seq<nat>): State
    decreases |closing|
  {
    if closing == [] then s else Closed(ClosedOne(s, closing[0]), closing[1..])
  }

  function ClosedOne(s: State, c: nat): State {
    if c in s.connections then Removed(s, c).(connections := s.connections - {c}) else s
  }

  ghost function Start(): State { State(map[], map[], {}, 1, {}, 1, [], [], {}, {}) }

  // ----------------------------------------------------------------- in place

  class WorldServer {
    const simulation: Simulation
    var playersByConnection: map<nat, Member>
    var connectionByPlayer: map<nat, nat>
    var nextPlayerId: nat
    var connections: set<nat>
    var nextConnection: nat
    var closing: seq<nat>
    /** The lookups in flight, which the source's callbacks capture. */
    var joins: seq<Join>
    ghost var greetings: set<(Address, Token)>
    ghost var streamed: set<(Address, Token)>

    ghost function Now(): State
      reads this, simulation
    {
      State(playersByConnection, connectionByPlayer, simulation.players.Keys, nextPlayerId,
            connections, nextConnection, closing, joins, greetings, streamed)
    }

    constructor (simulation: Simulation)
      requires simulation.players == map[]
      ensures this.simulation == simulation && Now() == Start()
    {
      this.simulation := simulation;
      playersByConnection, connectionByPlayer, nextPlayerId := map[], map[], 1;
      connections, nextConnection, closing, joins := {}, 1, [], [];
      greetings, streamed := {}, {};
    }

    method RemovePlayer(id: nat)
      requires simulation.Valid()
      modifies this`playersByConnection, this`connectionByPlayer, simulation
      ensures simulation.Valid() && Now() == Removed(old(Now()), id)
    {
      if id !in playersByConnection { return; }
      var playerId := playersByConnection[id].playerId;
      simulation.RemovePlayer(playerId);
      connectionByPlayer := connectionByPlayer - {playerId};
      playersByConnection := playersByConnection - {id};
    }

    method HandleJoinRequest(id: nat, token: Token)
      modifies this`joins
      ensures Now() == Next(old(Now()), JoinRequest(id, token))
    {
      if id in playersByConnection { return; }
      joins := joins + [Join(id, token)];
    }

    /** The answer to the k-th lookup in flight. */
    method HandleSession(w: World, k: nat, found: bool, now: real)
      requires simulation.Valid() && k < |joins|
      modifies this, simulation
      ensures simulation.Valid() && Now() == Next(old(Now()), Lookup(k, found, now))
    {
      var join := joins[k];
      joins := joins[..k] + joins[k + 1..];
      if found { Enter(w, join, now); }
    }

    method Enter(w: World, join: Join, now: real)
      requires simulation.Valid()
      modifies this, simulation
      ensures simulation.Valid() && Now() == Joined(old(Now()), join, now)
    {
      var player := Member(nextPlayerId, join.token, false, 0, 0, now);
      nextPlayerId := nextPlayerId + 1;
      connectionByPlayer := connectionByPlayer[player.playerId := join.connection];
      if join.connection !in playersByConnection {
        playersByConnection := playersByConnection[join.connection := player];
      }
      AddBody(w, player.playerId);
    }

    method AddBody(w: World, id: nat)
      requires simulation.Valid()
      modifies simulation
      ensures simulation.Valid() && simulation.players.Keys == old(simulation.players).Keys + {id}
    {
      var entityId := simulation.AddPlayer(w, id);
    }

    method HandleHello(from: Address, playerId: nat, token: Token, now: real)
      modifies this`playersByConnection, this`greetings
      ensures Now() == Greeted(old(Now()), from, playerId, token, now)
    {
      greetings := greetings + {(from, token)};
      if playerId !in connectionByPlayer { return; }
      var connection := connectionByPlayer[playerId];
      if connection !in playersByConnection { return; }
      var player := playersByConnection[connection];
      if player.token != token { return; }
      player := player.(udpBound := true, udpAddress := from, lastUdpPacket := now);
      playersByConnection := playersByConnection[connection := player];
    }

    /** The snapshot send loop; `sends` are the addresses sent to, with whose they are. */
    method StreamSnapshots() returns (sends: seq<(Address, Token)>)
      modifies this`playersByConnection, this`streamed
      ensures Now() == SnapshotsSent(old(Now()))
      ensures forall x :: x in sends <==> x in Receivers(old(playersByConnection))
    {
      streamed := streamed + Receivers(playersByConnection);
      ghost var before := playersByConnection;
      sends := SendEach();
      assert playersByConnection == map c | c in before :: Streamed(before[c]);
    }

    method SendEach() returns (sends: seq<(Address, Token)>)
      modifies this`playersByConnection
      ensures playersByConnection.Keys == old(playersByConnection).Keys
      ensures forall c :: c in playersByConnection ==> playersByConnection[c] == Streamed(old(playersByConnection)[c])
      ensures forall x :: x in sends <==> x in Receivers(old(playersByConnection))
    {
      sends := [];
      ghost var before := playersByConnection;
      var todo := playersByConnection.Keys;
      while todo != {}
        invariant todo <= playersByConnection.Keys == before.Keys
        invariant forall c :: c in before ==>
                    playersByConnection[c] == if c in todo then before[c] else Streamed(before[c])
        invariant forall c :: c in before && c !in todo && before[c].udpBound ==>
                    (before[c].udpAddress, before[c].token) in sends
        invariant forall x :: x in sends ==> x in Receivers(before)
        decreases todo
      {
        var connection :| connection in todo;
        todo := todo - {connection};
        var player := playersByConnection[connection];
        if player.udpBound {
          playersByConnection := playersByConnection[connection := player.(outgoingSequence := player.outgoingSequence + 1)];
          sends := sends + [(player.udpAddress, player.token)];
        }
      }
    }

    method DropSilentPlayers(deadline: real) returns (timedOut: seq<nat>)
      requires simulation.Valid()
      modifies this`playersByConnection, this`connectionByPlayer, this`closing, simulation
      ensures simulation.Valid()
      ensures forall c :: c in timedOut <==> c in old(playersByConnection) && Silent(old(playersByConnection)[c], deadline)
      ensures Now() == Next(old(Now()), DropSilent(timedOut, deadline))
    {
      timedOut := SilentPlayers(deadline);
      var k := 0;
      assert timedOut[0..] == timedOut;
      while k < |timedOut|
        invariant k <= |timedOut| && simulation.Valid()
        invariant Dropped(Now(), timedOut[k..]) == Dropped(old(Now()), timedOut)
      {
        assert timedOut[k..][1..] == timedOut[k + 1..];
        RemovePlayer(timedOut[k]);
        closing := closing + [timedOut[k]];
        k := k + 1;
      }
    }

    method SilentPlayers(deadline: real) returns (timedOut: seq<nat>)
      ensures forall c :: c in timedOut <==> c in playersByConnection && Silent(playersByConnection[c], deadline)
    {
      timedOut := [];
      var todo := playersByConnection.Keys;
      while todo != {}
        invariant todo <= playersByConnection.Keys
        invariant forall c :: c in timedOut <==>
                    c in playersByConnection && c !in todo && Silent(playersByConnection[c], deadline)
        decreases todo
      {
        var connection :| connection in todo;
        todo := todo - {connection};
        if Silent(playersByConnection[connection], deadline) { timedOut := timedOut + [connection]; }
      }
    }

    /** The end of a poll: the connections closed during it go now, and their players. */
    method FinishClosing()
      requires simulation.Valid()
      modifies this, simulation
      ensures simulation.Valid() && Now() == Next(old(Now()), Event.FinishClosing)
    {
      var k := 0;
      assert closing[0..] == closing;
      while k < |closing|
        invariant k <= |closing| && simulation.Valid() && closing == old(closing)
        invariant Closed(Now(), closing[k..]) == Closed(old(Now()), closing)
      {
        assert closing[k..][1..] == closing[k + 1..];
        var id := closing[k];
        if id in connections {
          RemovePlayer(id);
          connections := connections - {id};
        }
        k := k + 1;
      }
      closing := [];
    }

    method Accept() returns (id: nat)
      modifies this`connections, this`nextConnection
      ensures Now() == Next(old(Now()), Event.Accept) && id == old(nextConnection)
    {
      id := nextConnection;
      nextConnection := nextConnection + 1;
      connections := connections + {id};
    }
  }

  // -------------------------------------------------------- what always holds

  /** Every player of a connection leads back to it, and is streamed to only where its
      token came from. */
  ghost predicate Forward(s: State) {
    forall c :: c in s.players ==>
      var m := s.players[c];
      && m.playerId in s.byPlayer && s.byPlayer[m.playerId] == c
      && (m.udpBound ==> (m.udpAddress, m.token) in s.greetings)
  }

  /** The ids in use have been given out, those of connections wherever they occur. */
  ghost predicate IdsBelow(s: State) {
    && (forall id :: id in s.byPlayer ==> id < s.nextPlayer)
    && (forall c :: c in s.connections || c in s.players || c in s.closing ==> c < s.nextConnection)
    && (forall k :: 0 <= k < |s.joins| ==> s.joins[k].connection < s.nextConnection)
  }

  ghost predicate Inv(s: State) {
    Forward(s) && IdsBelow(s) && s.bodies == s.byPlayer.Keys && s.streamed <= s.greetings
  }

  lemma RemovedKeeps(s: State, c: nat)
    requires Inv(s)
    ensures Inv(Removed(s, c))
  {
  }

  lemma {:induction false} DroppedKeeps(s: State, cs: seq<nat>)
    requires Inv(s) && forall k :: 0 <= k < |cs| ==> cs[k] < s.nextConnection
    ensures Inv(Dropped(s, cs))
    decreases |cs|
  {
    if cs != [] {
      RemovedKeeps(s, cs[0]);
      DroppedKeeps(DroppedOne(s, cs[0]), cs[1..]);
    }
  }

  lemma {:induction false} ClosedKeeps(s: State, closing: seq<nat>)
    requires Inv(s)
    ensures Inv(Closed(s, closing))
    decreases |closing|
  {
    if closing != [] {
      RemovedKeeps(s, closing[0]);
      ClosedKeeps(ClosedOne(s, closing[0]), closing[1..]);
    }
  }

  lemma JoinedKeeps(s: State, j: Join, now: real)
    requires Inv(s) && j.connection < s.nextConnection
    ensures Inv(Joined(s, j, now)) && s.nextPlayer !in s.bodies && s.nextPlayer !in s.byPlayer
  {
  }

  lemma GreetedKeeps(s: State, from: Address, id: nat, token: Token, now: real)
    requires Inv(s)
    ensures Inv(Greeted(s, from, id, token, now))
  {
  }

  lemma SnapshotsKeep(s: State)
    requires Inv(s)
    ensures Inv(SnapshotsSent(s))
  {
  }

  lemma NextKeeps(s: State, e: Event)
    requires Inv(s) && Possible(s, e)
    ensures Inv(Next(s, e))
  {
    match e
    case Accept =>
    case JoinRequest(_, _) =>
    case Lookup(k, found, now) => if found { JoinedKeeps(WithoutJoin(s, k), s.joins[k], now); }
    case Logout(c) => RemovedKeeps(s, c);
    case Close(_) =>
    case FinishClosing => ClosedKeeps(s, s.closing);
    case Hello(from, id, token, now) => GreetedKeeps(s, from, id, token, now);
    case Packet(_, _, _) =>
    case Tick => SnapshotsKeep(s);
    case DropSilent(silent, _) => {
      assert forall k :: 0 <= k < |silent| ==> silent[k] in silent;
      DroppedKeeps(s, silent);
    }
  }

  // ---------------------------------------------------------------- every run

  ghost predicate Reaches(s: State, events: seq<Event>, t: State)
    decreases |events|
  {
    if events == [] then s == t else Possible(s, events[0]) && Reaches(Next(s, events[0]), events[1..], t)
  }

  lemma {:induction false} RunKeeps(s: State, events: seq<Event>, t: State)
    requires Inv(s) && Reaches(s, events, t)
    ensures Inv(t)
    decreases |events|
  {
    if events != [] {
      NextKeeps(s, events[0]);
      RunKeeps(Next(s, events[0]), events[1..], t);
    }
  }

  /** On every run: a connection's player leads back to it and has a body, no two share an
      id, and snapshots only went where a hello with the player's token came from. */
  lemma EveryRun(events: seq<Event>, t: State)
    requires Reaches(Start(), events, t)
    ensures forall c :: c in t.players ==>
              var id := t.players[c].playerId; id in t.byPlayer && t.byPlayer[id] == c && id in t.bodies
    ensures forall c, d :: c in t.players && d in t.players && c != d ==> t.players[c].playerId != t.players[d].playerId
    ensures t.streamed <= t.greetings
  {
    RunKeeps(Start(), events, t);
  }

  // ------------------------------------------------------- ids are not reused

  /** Of the ids given out by the time of s, those in use later are still in use from then. */
  ghost predicate NoneReused(s: State, t: State) {
    && s.nextPlayer <= t.nextPlayer && s.nextConnection <= t.nextConnection
    && (forall id :: id in t.byPlayer && id < s.nextPlayer ==> id in s.byPlayer)
    && (forall id :: id in t.bodies && id < s.nextPlayer ==> id in s.bodies)
    && (forall c :: c in t.connections && c < s.nextConnection ==> c in s.connections)
  }

  lemma {:induction false} DroppedReusesNone(s: State, cs: seq<nat>)
    ensures NoneReused(s, Dropped(s, cs))
    decreases |cs|
  {
    if cs != [] {
      DroppedReusesNone(DroppedOne(s, cs[0]), cs[1..]);
    }
  }

  lemma {:induction false} ClosedReusesNone(s: State, closing: seq<nat>)
    ensures NoneReused(s, Closed(s, closing))
    decreases |closing|
  {
    if closing != [] { ClosedReusesNone(ClosedOne(s, closing[0]), closing[1..]); }
  }

  lemma NextReusesNone(s: State, e: Event)
    requires Possible(s, e)
    ensures NoneReused(s, Next(s, e))
  {
    match e
    case FinishClosing => ClosedReusesNone(s, s.closing);
    case DropSilent(silent, _) => DroppedReusesNone(s, silent);
    case _ =>
  }

  /** On every run the id of a player or a connection that has gone is never given out
      again: whatever is given out then is new. */
  lemma {:induction false} IdsNeverReused(s: State, events: seq<Event>, t: State)
    requires Reaches(s, events, t)
    ensures NoneReused(s, t)
    decreases |events|
  {
    if events != [] {
      NextReusesNone(s, events[0]);
      IdsNeverReused(Next(s, events[0]), events[1..], t);
    }
  }

  /** The id of the next connection is not that of any connection, player, join in flight
      or close due, nor the next player's that of any player or body. */
  lemma NextIdsAreNew(events: seq<Event>, t: State)
    requires Reaches(Start(), events, t)
    ensures t.nextConnection !in t.connections && t.nextConnection !in t.players && t.nextConnection !in t.closing
    ensures forall k :: 0 <= k < |t.joins| ==> t.joins[k].connection != t.nextConnection
    ensures t.nextPlayer !in t.byPlayer && t.nextPlayer !in t.bodies
  {
    RunKeeps(Start(), events, t);
  }

  // ------------------------------------------------- who is heard and streamed to

  /** The event is a packet of that connection's player, or a hello that names it with its token. */
  ghost predicate Speaks(s: State, e: Event, c: nat) {
    (e.Packet? && e.connection == c) || (e.Hello? && Welcome(s, e.playerId, e.token) && s.byPlayer[e.playerId] == c)
  }

  /** When a player was last heard from, if it was `last` before the events. */
  ghost function LastHeard(s: State, events: seq<Event>, c: nat, last: real): real
    decreases |events|
  {
    if events == [] then last
    else LastHeard(Next(s, events[0]), events[1..], c, if Speaks(s, events[0], c) then events[0].now else last)
  }

  /** The address of its latest hello. */
  ghost function LastHello(s: State, events: seq<Event>, c: nat, from: Option<Address>): Option<Address>
    decreases |events|
  {
    if events == [] then from
    else
      var greets := events[0].Hello? && Speaks(s, events[0], c);
      LastHello(Next(s, events[0]), events[1..], c, if greets then Some(events[0].from) else from)
  }

  function Bound(m: Member): Option<Address> { if m.udpBound then Some(m.udpAddress) else None }

  lemma {:induction false} DroppedOthers(s: State, cs: seq<nat>, c: nat)
    requires Inv(s) && c in s.players && forall k :: 0 <= k < |cs| ==> cs[k] < s.nextConnection
    ensures var t := Dropped(s, cs); var id := s.players[c].playerId;
            if c in cs then c !in t.players && id !in t.byPlayer && id !in t.bodies && c in t.closing
            else c in t.players && t.players[c] == s.players[c] && id in t.byPlayer && id in t.bodies
                 && (c in t.closing <==> c in s.closing)
    decreases |cs|
  {
    if cs != [] {
      RemovedKeeps(s, cs[0]);
      if cs[0] == c {
        DroppedFor(DroppedOne(s, c), cs[1..], c, s.players[c].playerId);
      } else {
        DroppedOthers(DroppedOne(s, cs[0]), cs[1..], c);
      }
    }
  }

  /** What has gone stays gone while others are dropped. */
  lemma {:induction false} DroppedFor(s: State, cs: seq<nat>, c: nat, id: nat)
    requires c !in s.players && id !in s.byPlayer && id !in s.bodies && c in s.closing
    ensures var t := Dropped(s, cs); c !in t.players && id !in t.byPlayer && id !in t.bodies && c in t.closing
    decreases |cs|
  {
    if cs != [] {
      DroppedFor(DroppedOne(s, cs[0]), cs[1..], c, id);
    }
  }

  lemma {:induction false} ClosedOthers(s: State, closing: seq<nat>, c: nat)
    requires Inv(s) && c in s.players
    ensures var t := Closed(s, closing); var id := s.players[c].playerId;
            if c in closing && c in s.connections then c !in t.players && id !in t.byPlayer && id !in t.bodies
            else c in t.players && t.players[c] == s.players[c] && id in t.byPlayer && id in t.bodies
    decreases |closing|
  {
    if closing != [] {
      RemovedKeeps(s, closing[0]);
      if closing[0] == c && c in s.connections {
        ClosedFor(ClosedOne(s, c), closing[1..], c, s.players[c].playerId);
      } else {
        ClosedOthers(ClosedOne(s, closing[0]), closing[1..], c);
      }
    }
  }

  lemma {:induction false} ClosedFor(s: State, closing: seq<nat>, c: nat, id: nat)
    requires c !in s.players && id !in s.byPlayer && id !in s.bodies
    ensures var t := Closed(s, closing); c !in t.players && id !in t.byPlayer && id !in t.bodies
    decreases |closing|
  {
    if closing != [] { ClosedFor(ClosedOne(s, closing[0]), closing[1..], c, id); }
  }

  /** The same player, after an event that it may have been heard by, or gone for good. */
  ghost predicate Carried(s: State, e: Event, c: nat)
    requires c in s.players
  {
    var m := s.players[c];
    var t := Next(s, e);
    if c in t.players then
      && t.players[c].playerId == m.playerId && t.players[c].token == m.token
      && t.players[c].lastUdpPacket == (if Speaks(s, e, c) then e.now else m.lastUdpPacket)
      && Bound(t.players[c]) == (if e.Hello? && Speaks(s, e, c) then Some(e.from) else Bound(m))
    else m.playerId !in t.byPlayer
  }

  lemma NextCarries(s: State, e: Event, c: nat)
    requires Inv(s) && Possible(s, e) && c in s.players
    ensures Carried(s, e, c)
  {
    match e
    case FinishClosing => ClosedOthers(s, s.closing, c);
    case DropSilent(silent, _) => {
      assert forall k :: 0 <= k < |silent| ==> silent[k] in silent;
      DroppedOthers(s, silent, c);
    }
    case _ =>
  }

  /** On every run, as long as a player is in the tables: its token does not change, it is
      bound to where its latest hello came from, and its time is that of the last datagram
      that was its own. */
  lemma {:induction false} PlayerOverRun(s: State, events: seq<Event>, t: State, c: nat)
    requires Inv(s) && Reaches(s, events, t) && c in s.players && c in t.players
    requires t.players[c].playerId == s.players[c].playerId
    ensures t.players[c].token == s.players[c].token
    ensures t.players[c].lastUdpPacket == LastHeard(s, events, c, s.players[c].lastUdpPacket)
    ensures Bound(t.players[c]) == LastHello(s, events, c, Bound(s.players[c]))
    decreases |events|
  {
    if events != [] {
      var next := Next(s, events[0]);
      NextKeeps(s, events[0]);
      NextCarries(s, events[0], c);
      RunKeeps(next, events[1..], t);
      IdsNeverReused(next, events[1..], t);
      assert s.players[c].playerId in t.byPlayer;
      assert s.players[c].playerId < next.nextPlayer by { NextReusesNone(s, events[0]); }
      PlayerOverRun(next, events[1..], t, c);
    }
  }

  /** At a tick, on every run, exactly the bound players are streamed to, each where its
      hello came from, under the next number. */
  lemma TickStreams(events: seq<Event>, s: State)
    requires Reaches(Start(), events, s)
    ensures var t := Next(s, Tick);
            && t.players.Keys == s.players.Keys
            && (forall c :: c in s.players && s.players[c].udpBound ==>
                  && (s.players[c].udpAddress, s.players[c].token) in t.streamed
                  && t.players[c] == s.players[c].(outgoingSequence := s.players[c].outgoingSequence + 1))
            && (forall c :: c in s.players && !s.players[c].udpBound ==> t.players[c] == s.players[c])
            && (forall x :: x in t.streamed && x !in s.streamed ==>
                  exists c :: c in s.players && s.players[c].udpBound && x == (s.players[c].udpAddress, s.players[c].token))
  {
  }

  /** Dropping the silent, on every run: a bound player not heard from since the deadline
      goes from both tables and the world and its connection is to be closed; any other
      player stays as it is. */
  lemma SilentDropped(events: seq<Event>, s: State, c: nat, silent: seq<nat>, deadline: real)
    requires Reaches(Start(), events, s) && c in s.players && Possible(s, DropSilent(silent, deadline))
    ensures var t := Next(s, DropSilent(silent, deadline)); var m := s.players[c];
            if m.udpBound && m.lastUdpPacket < deadline
            then c !in t.players && m.playerId !in t.byPlayer && m.playerId !in t.bodies && c in t.closing
            else c in t.players && t.players[c] == m && m.playerId in t.byPlayer && m.playerId in t.bodies
                 && (c in t.closing <==> c in s.closing)
  {
    RunKeeps(Start(), events, s);
    assert forall k :: 0 <= k < |silent| ==> silent[k] in silent;
    DroppedOthers(s, silent, c);
  }

  /** Told from a player's datagrams alone: it is dropped just when it has said hello and
      nothing of it has come since the deadline. */
  lemma SilenceDecides(before: seq<Event>, s: State, events: seq<Event>, t: State, c: nat, silent: seq<nat>, deadline: real)
    requires Reaches(Start(), before, s) && Reaches(s, events, t) && c in s.players && c in t.players
    requires s.players[c].playerId == t.players[c].playerId && Possible(t, DropSilent(silent, deadline))
    ensures var m := s.players[c];
            c !in Next(t, DropSilent(silent, deadline)).players <==>
            LastHello(s, events, c, if m.udpBound then Some(m.udpAddress) else None).Some?
            && LastHeard(s, events, c, m.lastUdpPacket) < deadline
  {
    RunKeeps(Start(), before, s);
    RunKeeps(s, events, t);
    PlayerOverRun(s, events, t, c);
    assert forall k :: 0 <= k < |silent| ==> silent[k] in silent;
    DroppedOthers(t, silent, c);
  }

  /** The closes that were put off: every connection queued goes, with its player, and no other. */
  lemma ClosesAll(events: seq<Event>, s: State, c: nat)
    requires Reaches(Start(), events, s)
    ensures var t := Next(s, FinishClosing);
            && t.closing == [] && (c in t.connections <==> c in s.connections && c !in s.closing)
            && (c in s.players && c in s.closing && c in s.connections ==>
                  c !in t.players && s.players[c].playerId !in t.byPlayer && s.players[c].playerId !in t.bodies)
            && (c in s.players && (c !in s.closing || c !in s.connections) ==>
                  c in t.players && t.players[c] == s.players[c] && s.players[c].playerId in t.bodies)
  {
    RunKeeps(Start(), events, s);
    ClosedConnections(s, s.closing, c);
    if c in s.players { ClosedOthers(s, s.closing, c); }
  }

  lemma {:induction false} ClosedConnections(s: State, closing: seq<nat>, c: nat)
    ensures c in Closed(s, closing).connections <==> c in s.connections && c !in closing
    decreases |closing|
  {
    if closing != [] { ClosedConnections(ClosedOne(s, closing[0]), closing[1..], c); }
  }

  /** What the joins of a run asked for. */
  ghost function Asked(events: seq<Event>): set<(nat, Token)>
    decreases |events|
  {
    if events == [] then {}
    else Asked(events[1..]) + if events[0].JoinRequest? then {(events[0].connection, events[0].token)} else {}
  }

  ghost predicate TokensFrom(s: State, asked: set<(nat, Token)>) {
    && (forall k :: 0 <= k < |s.joins| ==> (s.joins[k].connection, s.joins[k].token) in asked)
    && (forall c :: c in s.players ==> (c, s.players[c].token) in asked)
  }

  lemma NextTokens(s: State, e: Event, asked: set<(nat, Token)>)
    requires Inv(s) && Possible(s, e) && TokensFrom(s, asked) && (e.JoinRequest? ==> (e.connection, e.token) in asked)
    ensures TokensFrom(Next(s, e), asked)
  {
    match e
    case FinishClosing => ClosedTokens(s, s.closing, asked);
    case DropSilent(silent, _) => DroppedTokens(s, silent, asked);
    case Lookup(k, found, now) => LookupTokens(s, k, asked);
    case _ =>
  }

  lemma LookupTokens(s: State, k: nat, asked: set<(nat, Token)>)
    requires TokensFrom(s, asked) && k < |s.joins|
    ensures TokensFrom(WithoutJoin(s, k), asked) && (s.joins[k].connection, s.joins[k].token) in asked
  {
    var r := WithoutJoin(s, k);
    assert forall i :: 0 <= i < |r.joins| ==> r.joins[i] == s.joins[if i < k then i else i + 1];
  }

  lemma {:induction false} DroppedTokens(s: State, cs: seq<nat>, asked: set<(nat, Token)>)
    requires TokensFrom(s, asked)
    ensures TokensFrom(Dropped(s, cs), asked)
    decreases |cs|
  {
    if cs != [] {
      DroppedTokens(DroppedOne(s, cs[0]), cs[1..], asked);
    }
  }

  lemma {:induction false} ClosedTokens(s: State, closing: seq<nat>, asked: set<(nat, Token)>)
    requires TokensFrom(s, asked)
    ensures TokensFrom(Closed(s, closing), asked)
    decreases |closing|
  {
    if closing != [] { ClosedTokens(ClosedOne(s, closing[0]), closing[1..], asked); }
  }

  lemma {:induction false} RunTokens(s: State, events: seq<Event>, t: State, asked: set<(nat, Token)>)
    requires Inv(s) && TokensFrom(s, asked) && Asked(events) <= asked && Reaches(s, events, t)
    ensures TokensFrom(t, asked)
    decreases |events|
  {
    if events != [] {
      NextTokens(s, events[0], asked);
      NextKeeps(s, events[0]);
      RunTokens(Next(s, events[0]), events[1..], t, asked);
    }
  }

  lemma {:induction false} AskedBy(events: seq<Event>, c: nat, token: Token) returns (j: nat)
    requires (c, token) in Asked(events)
    ensures j < |events| && events[j] == JoinRequest(c, token)
    decreases |events|
  {
    if events[0] == JoinRequest(c, token) {
      j := 0;
    } else {
      j := AskedBy(events[1..], c, token);
      j := j + 1;
    }
  }

  /** On every run a player's token is the one that a join of its own connection brought. */
  lemma TokenOfItsJoin(events: seq<Event>, t: State, c: nat) returns (j: nat)
    requires Reaches(Start(), events, t) && c in t.players
    ensures j < |events| && events[j] == JoinRequest(c, t.players[c].token)
  {
    RunTokens(Start(), events, t, Asked(events));
    j := AskedBy(events, c, t.players[c].token);
  }

  // --------------------------------------------------------- exact inverses

  /** The tables are inverses of each other. */
  ghost predicate Inverse(s: State) { forall id :: id in s.byPlayer ==> LeadsBack(s, id) }

  ghost predicate LeadsBack(s: State, id: nat)
    requires id in s.byPlayer
  {
    s.byPlayer[id] in s.players && s.players[s.byPlayer[id]].playerId == id
  }

  ghost predicate Tidy(s: State) { Inv(s) && Inverse(s) }

  /** A join keeps the tables inverse just when its connection has no player yet. */
  lemma JoinedInverse(s: State, j: Join, now: real)
    requires Tidy(s)
    ensures Inverse(Joined(s, j, now)) <==> j.connection !in s.players
  {
    var t := Joined(s, j, now);
    assert s.nextPlayer in t.byPlayer;
    if j.connection !in s.players {
      forall id | id in t.byPlayer ensures LeadsBack(t, id) { assert id != s.nextPlayer ==> LeadsBack(s, id); }
    }
  }

  lemma RemovedTidy(s: State, c: nat)
    requires Tidy(s)
    ensures Tidy(Removed(s, c))
  {
    var t := Removed(s, c);
    forall id | id in t.byPlayer ensures LeadsBack(t, id) { assert LeadsBack(s, id); }
  }

  lemma {:induction false} DroppedTidy(s: State, cs: seq<nat>)
    requires Tidy(s) && forall k :: 0 <= k < |cs| ==> cs[k] < s.nextConnection
    ensures Tidy(Dropped(s, cs))
    decreases |cs|
  {
    if cs != [] {
      RemovedTidy(s, cs[0]);
      var r, t := Removed(s, cs[0]), DroppedOne(s, cs[0]);
      assert forall id :: id in t.byPlayer ==> LeadsBack(r, id) && LeadsBack(t, id);
      DroppedTidy(t, cs[1..]);
    }
  }

  lemma {:induction false} ClosedTidy(s: State, closing: seq<nat>)
    requires Tidy(s)
    ensures Tidy(Closed(s, closing))
    decreases |closing|
  {
    if closing != [] {
      RemovedTidy(s, closing[0]);
      var r, t := Removed(s, closing[0]), ClosedOne(s, closing[0]);
      assert closing[0] in s.connections ==> forall id :: id in t.byPlayer ==> LeadsBack(r, id) && LeadsBack(t, id);
      ClosedTidy(t, closing[1..]);
    }
  }

  /** The join that is answered, if a session is found, is for a connection without a player. */
  ghost predicate FirstPlayer(s: State, e: Event)
    requires Possible(s, e)
  {
    e.Lookup? && e.found ==> s.joins[e.k].connection !in s.players
  }

  lemma LookupTidy(s: State, k: nat, now: real)
    requires Tidy(s) && k < |s.joins| && s.joins[k].connection !in s.players
    ensures Inverse(Joined(WithoutJoin(s, k), s.joins[k], now))
  {
    var r := WithoutJoin(s, k);
    assert forall id :: id in r.byPlayer ==> LeadsBack(s, id) && LeadsBack(r, id);
    JoinedInverse(r, s.joins[k], now);
  }

  lemma NextTidy(s: State, e: Event)
    requires Tidy(s) && Possible(s, e) && FirstPlayer(s, e)
    ensures Tidy(Next(s, e))
  {
    NextKeeps(s, e);
    var t := Next(s, e);
    match e
    case Lookup(k, true, now) => LookupTidy(s, k, now);
    case Logout(c) => RemovedTidy(s, c);
    case FinishClosing => ClosedTidy(s, s.closing);
    case DropSilent(silent, _) => {
      assert forall k :: 0 <= k < |silent| ==> silent[k] in silent;
      DroppedTidy(s, silent);
    }
    case _ => forall id | id in t.byPlayer ensures LeadsBack(t, id) { assert LeadsBack(s, id); }
  }

  /** An entry that does not lead back. */
  ghost predicate Leaked(s: State, id: nat) { id in s.byPlayer && !LeadsBack(s, id) }

  lemma {:induction false} DroppedLeaks(s: State, cs: seq<nat>, id: nat)
    requires Inv(s) && Leaked(s, id) && forall k :: 0 <= k < |cs| ==> cs[k] < s.nextConnection
    ensures Leaked(Dropped(s, cs), id)
    decreases |cs|
  {
    if cs != [] {
      RemovedKeeps(s, cs[0]);
      DroppedLeaks(DroppedOne(s, cs[0]), cs[1..], id);
    }
  }

  lemma {:induction false} ClosedLeaks(s: State, closing: seq<nat>, id: nat)
    requires Inv(s) && Leaked(s, id)
    ensures Leaked(Closed(s, closing), id)
    decreases |closing|
  {
    if closing != [] {
      RemovedKeeps(s, closing[0]);
      ClosedLeaks(ClosedOne(s, closing[0]), closing[1..], id);
    }
  }

  lemma NextLeaks(s: State, e: Event, id: nat)
    requires Inv(s) && Possible(s, e) && Leaked(s, id)
    ensures Leaked(Next(s, e), id)
  {
    match e
    case FinishClosing => ClosedLeaks(s, s.closing, id);
    case DropSilent(silent, _) => {
      assert forall k :: 0 <= k < |silent| ==> silent[k] in silent;
      DroppedLeaks(s, silent, id);
    }
    case _ =>
  }

  /** A leaked entry is never removed. */
  lemma {:induction false} LeakStays(s: State, events: seq<Event>, t: State, id: nat)
    requires Inv(s) && Leaked(s, id) && Reaches(s, events, t)
    ensures Leaked(t, id)
    decreases |events|
  {
    if events != [] {
      NextKeeps(s, events[0]);
      NextLeaks(s, events[0], id);
      LeakStays(Next(s, events[0]), events[1..], t, id);
    }
  }

  ghost predicate FirstPlayers(s: State, events: seq<Event>, t: State)
    requires Reaches(s, events, t)
    decreases |events|
  {
    events == [] || (FirstPlayer(s, events[0]) && FirstPlayers(Next(s, events[0]), events[1..], t))
  }

  lemma LookupLeaks(s: State, k: nat, now: real) returns (id: nat)
    requires Tidy(s) && k < |s.joins| && s.joins[k].connection in s.players
    ensures Leaked(Joined(WithoutJoin(s, k), s.joins[k], now), id)
  {
    id := s.nextPlayer;
  }

  lemma {:induction false} InverseFrom(s: State, events: seq<Event>, t: State)
    requires Tidy(s) && Reaches(s, events, t)
    ensures Inverse(t) <==> FirstPlayers(s, events, t)
    decreases |events|
  {
    if events != [] {
      NextKeeps(s, events[0]);
      if FirstPlayer(s, events[0]) {
        NextTidy(s, events[0]);
        InverseFrom(Next(s, events[0]), events[1..], t);
      } else {
        var id := LookupLeaks(s, events[0].k, events[0].now);
        LeakStays(Next(s, events[0]), events[1..], t, id);
      }
    }
  }

  /** At the end of a run the tables are exact inverses, and the bodies the players', if and
      only if every join answered with a session was for a connection without a player. */
  lemma InverseIfFirstPlayers(events: seq<Event>, t: State)
    requires Reaches(Start(), events, t)
    ensures Inverse(t) <==> FirstPlayers(Start(), events, t)
    ensures t.bodies == t.byPlayer.Keys
  {
    RunKeeps(Start(), events, t);
    InverseFrom(Start(), events, t);
  }

  /** At most one join in flight per connection, and none on one that has a player. */
  ghost predicate OneJoin(s: State) {
    && (forall k :: 0 <= k < |s.joins| ==> s.joins[k].connection !in s.players)
    && (forall j, k :: 0 <= j < k < |s.joins| ==> s.joins[j].connection != s.joins[k].connection)
  }

  /** A connection with a join in flight asks for no other. */
  ghost predicate Patient(s: State, e: Event) {
    e.JoinRequest? ==> forall k :: 0 <= k < |s.joins| ==> s.joins[k].connection != e.connection
  }

  ghost predicate AllPatient(s: State, events: seq<Event>)
    decreases |events|
  {
    events == [] || (Patient(s, events[0]) && AllPatient(Next(s, events[0]), events[1..]))
  }

  lemma {:induction false} DroppedShrinks(s: State, cs: seq<nat>)
    ensures Dropped(s, cs).players.Keys <= s.players.Keys && Dropped(s, cs).joins == s.joins
    decreases |cs|
  {
    if cs != [] {
      DroppedShrinks(DroppedOne(s, cs[0]), cs[1..]);
    }
  }

  lemma {:induction false} ClosedShrinks(s: State, closing: seq<nat>)
    ensures Closed(s, closing).players.Keys <= s.players.Keys && Closed(s, closing).joins == s.joins
    decreases |closing|
  {
    if closing != [] { ClosedShrinks(ClosedOne(s, closing[0]), closing[1..]); }
  }

  lemma LookupOneJoin(s: State, k: nat, found: bool, now: real)
    requires OneJoin(s) && k < |s.joins|
    ensures OneJoin(Next(s, Lookup(k, found, now)))
  {
    var r := WithoutJoin(s, k);
    assert forall i :: 0 <= i < |r.joins| ==> r.joins[i] == s.joins[if i < k then i else i + 1];
  }

  lemma NextOneJoin(s: State, e: Event)
    requires OneJoin(s) && Possible(s, e) && Patient(s, e)
    ensures OneJoin(Next(s, e))
  {
    match e
    case Lookup(k, found, now) => LookupOneJoin(s, k, found, now);
    case FinishClosing => ClosedShrinks(s, s.closing);
    case DropSilent(silent, _) => DroppedShrinks(s, silent);
    case _ =>
  }

  lemma {:induction false} PatienceIsEnough(s: State, events: seq<Event>, t: State)
    requires OneJoin(s) && Reaches(s, events, t) && AllPatient(s, events)
    ensures FirstPlayers(s, events, t)
    decreases |events|
  {
    if events != [] {
      NextOneJoin(s, events[0]);
      PatienceIsEnough(Next(s, events[0]), events[1..], t);
    }
  }

  /** With at most one join in flight per connection the tables stay exact inverses. */
  lemma PatientRunInverse(events: seq<Event>, t: State)
    requires Reaches(Start(), events, t) && AllPatient(Start(), events)
    ensures Inverse(t) && t.bodies == t.byPlayer.Keys
  {
    PatienceIsEnough(Start(), events, t);
    InverseIfFirstPlayers(events, t);
  }

  /** ... and not otherwise: of two joins answered on one connection the second leaves a
      body and a table entry which logging out does not remove. */
  lemma SecondJoinLeaks(s: State, c: nat, a: Token, b: Token, now: real)
    requires Inv(s) && c in s.connections && c !in s.players && s.joins == []
    ensures var t := Next(Next(s, JoinRequest(c, a)), JoinRequest(c, b));
            var u := Next(Next(t, Lookup(0, true, now)), Lookup(0, true, now));
            var v := Next(u, Logout(c));
            c !in v.players && s.nextPlayer + 1 in v.byPlayer && s.nextPlayer + 1 in v.bodies
  {
    var t := Next(Next(s, JoinRequest(c, a)), JoinRequest(c, b));
    assert t.joins == [Join(c, a), Join(c, b)];
    var u1 := Next(t, Lookup(0, true, now));
    assert u1.joins == [Join(c, b)];
  }

  // -------------------------------------------------------- orphaned players

  /** Every player's connection is there. */
  ghost predicate AllLive(s: State) { forall c :: c in s.players ==> c in s.connections }

  /** A join keeps it so just when its connection is still there. */
  lemma JoinedLive(s: State, j: Join, now: real)
    requires AllLive(s)
    ensures AllLive(Joined(s, j, now)) <==> j.connection in s.connections
  {
    assert j.connection in Joined(s, j, now).players;
  }

  /** The join that is answered, if a session is found, is for a connection still there. */
  ghost predicate AnsweredLive(s: State, e: Event)
    requires Possible(s, e)
  {
    e.Lookup? && e.found ==> s.joins[e.k].connection in s.connections
  }

  lemma {:induction false} ClosedLive(s: State, closing: seq<nat>)
    requires AllLive(s)
    ensures AllLive(Closed(s, closing))
    decreases |closing|
  {
    if closing != [] { ClosedLive(ClosedOne(s, closing[0]), closing[1..]); }
  }

  lemma {:induction false} DroppedLive(s: State, cs: seq<nat>)
    requires AllLive(s)
    ensures AllLive(Dropped(s, cs))
    decreases |cs|
  {
    if cs != [] {
      DroppedLive(DroppedOne(s, cs[0]), cs[1..]);
    }
  }

  lemma NextLive(s: State, e: Event)
    requires AllLive(s) && Possible(s, e)
    ensures AllLive(Next(s, e)) <==> AnsweredLive(s, e)
  {
    match e
    case Lookup(k, found, now) => if found { JoinedLive(WithoutJoin(s, k), s.joins[k], now); }
    case FinishClosing => ClosedLive(s, s.closing);
    case DropSilent(silent, _) => DroppedLive(s, silent);
    case _ =>
  }

  ghost predicate AllAnsweredLive(s: State, events: seq<Event>, t: State)
    requires Reaches(s, events, t)
    decreases |events|
  {
    events == [] || (AnsweredLive(s, events[0]) && AllAnsweredLive(Next(s, events[0]), events[1..], t))
  }

  /** In every state of the run every player has a connection. */
  ghost predicate LiveThroughout(s: State, events: seq<Event>, t: State)
    requires Reaches(s, events, t)
    decreases |events|
  {
    AllLive(s) && (events == [] || LiveThroughout(Next(s, events[0]), events[1..], t))
  }

  /** Every player has a connection all the way if and only if no join is answered after its
      connection has gone. */
  lemma {:induction false} LiveRun(s: State, events: seq<Event>, t: State)
    requires AllLive(s) && Reaches(s, events, t)
    ensures LiveThroughout(s, events, t) <==> AllAnsweredLive(s, events, t)
    ensures AllAnsweredLive(s, events, t) ==> AllLive(t)
    decreases |events|
  {
    if events != [] {
      NextLive(s, events[0]);
      if AnsweredLive(s, events[0]) { LiveRun(Next(s, events[0]), events[1..], t); }
    }
  }

  /** A player without a connection that has never said hello. */
  ghost predicate Orphan(s: State, c: nat) {
    c in s.players && c !in s.connections && c < s.nextConnection && !s.players[c].udpBound
  }

  /** Nothing but a hello for an orphan changes it. */
  lemma OrphanStays(s: State, c: nat, e: Event)
    requires Possible(s, e) && Orphan(s, c)
    requires e.Hello? ==> !(Welcome(s, e.playerId, e.token) && s.byPlayer[e.playerId] == c)
    ensures Orphan(Next(s, e), c) && Next(s, e).players[c] == s.players[c]
  {
    match e
    case FinishClosing => OrphanStaysClosing(s, c, s.closing);
    case DropSilent(silent, _) => OrphanStaysDropping(s, c, silent);
    case _ =>
  }

  lemma {:induction false} OrphanStaysClosing(s: State, c: nat, closing: seq<nat>)
    requires Orphan(s, c)
    ensures Orphan(Closed(s, closing), c) && Closed(s, closing).players[c] == s.players[c]
    decreases |closing|
  {
    if closing != [] { OrphanStaysClosing(ClosedOne(s, closing[0]), c, closing[1..]); }
  }

  lemma {:induction false} OrphanStaysDropping(s: State, c: nat, cs: seq<nat>)
    requires Orphan(s, c) && c !in cs
    ensures Orphan(Dropped(s, cs), c) && Dropped(s, cs).players[c] == s.players[c]
    decreases |cs|
  {
    if cs != [] {
      OrphanStaysDropping(DroppedOne(s, cs[0]), c, cs[1..]);
    }
  }

  /** No hello of the run names the player of c with its token. */
  ghost predicate NeverWelcome(s: State, events: seq<Event>, c: nat)
    decreases |events|
  {
    events == []
    || (var e := events[0];
        && (e.Hello? ==> !(Welcome(s, e.playerId, e.token) && s.byPlayer[e.playerId] == c))
        && NeverWelcome(Next(s, e), events[1..], c))
  }

  lemma {:induction false} OrphanStaysOn(s: State, events: seq<Event>, t: State, c: nat)
    requires Reaches(s, events, t) && Orphan(s, c) && NeverWelcome(s, events, c)
    ensures Orphan(t, c) && t.players[c] == s.players[c]
    decreases |events|
  {
    if events != [] {
      OrphanStays(s, c, events[0]);
      OrphanStaysOn(Next(s, events[0]), events[1..], t, c);
    }
  }

  /** A run that makes an orphan: a connection that goes while its join is looked up. */
  lemma OrphanMade(token: Token, now: real) returns (events: seq<Event>, t: State)
    ensures Reaches(Start(), events, t) && Orphan(t, 1) && t.players[1].playerId in t.bodies
  {
    var s1 := Next(Start(), Accept);
    var s2 := Next(s1, JoinRequest(1, token));
    var s3 := Next(s2, Close(1));
    assert s3.closing == [1] && s3.closing[1..] == [];
    var s4 := Next(s3, FinishClosing);
    assert Closed(s3, s3.closing) == ClosedOne(s3, 1);
    t := Next(s4, Lookup(0, true, now));
    events := [Lookup(0, true, now)];
    assert Reaches(s4, events, t);
    events := [FinishClosing] + events;
    assert Reaches(s3, events, t);
    events := [Close(1)] + events;
    assert Reaches(s2, events, t);
    events := [JoinRequest(1, token)] + events;
    assert Reaches(s1, events, t);
    events := [Accept] + events;
  }
}

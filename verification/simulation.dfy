/** The authoritative world (`world::Simulation`): the players' characters, the tick and
    the clock. The scripted cube is not part of this model. */
module Simulation {
  import opened Character
  import opened Prediction
  import opened WorldClock

  const FIRST_PLAYER_ENTITY := 1000

  datatype Player = Player(entityId: nat, body: Body, input: Input, lastInputSequence: nat)

  /** A player's part of a snapshot. */
  datatype EntityState = EntityState(id: nat, state: Authority)

  /** The cube, which comes first in the source's list, is not part of this model. */
  datatype Snapshot = Snapshot(tick: nat, timeOfDay: real, entities: seq<EntityState>)

  type Players = map<nat, Player>

  const NO_INPUT := Input(0, 0.0, 0.0, 0.0, false, false)

  // ------------------------------------------------------------ one player

  /** Datagrams may come in any order: an older intent does not replace a newer one. */
  function WithInput(p: Player, i: Input): Player {
    if i.sequence != 0 && i.sequence < p.input.sequence then p else p.(input := i)
  }

  function Ticked(w: World, p: Player): Player {
    Player(p.entityId, Step(w, p.body, p.input), p.input.(jump := false), p.input.sequence)
  }

  function StateOf(p: Player): EntityState {
    EntityState(p.entityId, Authority(p.body.position, p.body.velocity, p.lastInputSequence))
  }

  /** Dropped from a little above the ground; `count` spreads the spawns out. */
  function Spawned(w: World, entityId: nat, count: nat): Player {
    var angle := count as real * 1.2;
    var x, z := w.cos(angle) * 3.0, 6.0 + w.sin(angle) * 2.0;
    Player(entityId, Body(Vec3(x, w.RestY(x, z) + 0.2, z), Zero(), false, 0.0), NO_INPUT, 0)
  }

  // ------------------------------------------------------------- snapshots

  ghost predicate Least(id: nat, ids: set<nat>) { id in ids && forall k :: k in ids ==> id <= k }

  lemma LeastExists(ids: set<nat>) returns (id: nat)
    requires ids != {}
    ensures Least(id, ids)
  {
    id :| id in ids;
    if exists k :: k in ids && k < id {
      var k :| k in ids && k < id;
      var less := set j | j in ids && j < id;
      assert k in less && id !in less;
      var most := id;
      id := LeastExists(less);
      assert forall j :: j in ids ==> j in less || most <= j;
    }
  }

  /** The states of the players in ascending order of player id. */
  ghost predicate Lists(entities: seq<EntityState>, ids: seq<nat>, players: Players) {
    && |entities| == |ids|
    && (forall j, k :: 0 <= j < k < |ids| ==> ids[j] < ids[k])
    && (forall id :: id in players <==> id in ids)
    && (forall k :: 0 <= k < |ids| ==> ids[k] in players && entities[k] == StateOf(players[ids[k]]))
  }

  /** Distinct bodies have distinct entity ids, and the next one is above them all. */
  ghost predicate Ids(players: Players, next: nat) {
    && FIRST_PLAYER_ENTITY <= next
    && (forall k :: k in players ==> FIRST_PLAYER_ENTITY <= players[k].entityId < next)
    && (forall j, k :: j in players && k in players && j != k ==> players[j].entityId != players[k].entityId)
  }

  ghost predicate AllTicked(w: World, before: Players, after: Players) {
    after.Keys == before.Keys && forall id :: id in before ==> after[id] == Ticked(w, before[id])
  }

  lemma SameIds(players: Players, next: nat, others: Players)
    requires Ids(players, next) && others.Keys == players.Keys
    requires forall k :: k in players ==> others[k].entityId == players[k].entityId
    ensures Ids(others, next)
  {
  }

  method TickPlayer(w: World, before: Player) returns (player: Player)
    ensures player == Ticked(w, before)
  {
    player := before.(body := Step(w, before.body, before.input));
    player := player.(lastInputSequence := player.input.sequence);
    player := player.(input := player.input.(jump := false));
  }

  class Simulation {
    var players: Players
    var nextPlayerEntityId: nat
    var tick: nat
    var clock: Clock

    ghost predicate Valid()
      reads this
    {
      Ids(players, nextPlayerEntityId)
    }

    /** `Simulation::init`. The speed asked for does not survive the reset of the clock. */
    constructor (timeSpeed: real, secondsToday: nat, now: real)
      ensures Valid() && players == map[] && tick == 0 && nextPlayerEntityId == FIRST_PLAYER_ENTITY
      ensures clock == Reset(secondsToday, now)
    {
      players, nextPlayerEntityId, tick := map[], FIRST_PLAYER_ENTITY, 0;
      clock := Clock(0.3, 0.0, 0.0, if timeSpeed > 0.0 then timeSpeed else 1.0);
      new;
      ResetClock(secondsToday, now);
    }

    /** A second call for the same player changes nothing and gives the same id. */
    method AddPlayer(w: World, playerId: nat) returns (entityId: nat)
      requires Valid()
      modifies this`players, this`nextPlayerEntityId
      ensures Valid() && playerId in players && players[playerId].entityId == entityId
      ensures playerId in old(players) ==> players == old(players) && nextPlayerEntityId == old(nextPlayerEntityId)
      ensures playerId !in old(players) ==>
                && entityId == old(nextPlayerEntityId) && nextPlayerEntityId == entityId + 1
                && players == old(players)[playerId := Spawned(w, entityId, |old(players)|)]
    {
      if playerId in players { return players[playerId].entityId; }
      entityId := nextPlayerEntityId;
      nextPlayerEntityId := nextPlayerEntityId + 1;
      players := players[playerId := Spawned(w, entityId, |players|)];
    }

    method RemovePlayer(playerId: nat)
      requires Valid()
      modifies this`players
      ensures Valid() && players == old(players) - {playerId}
    {
      players := players - {playerId};
    }

    method SetInput(playerId: nat, input: Input)
      requires Valid()
      modifies this`players
      ensures Valid() && players == if playerId !in old(players) then old(players)
                                    else old(players)[playerId := WithInput(old(players)[playerId], input)]
    {
      if playerId !in players { return; }
      var it := players[playerId];
      if input.sequence != 0 && input.sequence < it.input.sequence { return; }
      players := players[playerId := it.(input := input)];
    }

    method Step(w: World, now: real)
      requires Valid()
      modifies this`players, this`tick, this`clock
      ensures Valid() && tick == old(tick) + 1 && clock == Stepped(old(clock), now)
      ensures AllTicked(w, old(players), players)
    {
      tick := tick + 1;
      var elapsed := now - clock.anchorReal;
      var t := clock.anchorTime + Part(clock.speed, elapsed);
      clock := clock.(timeOfDay := t - t.Floor as real);
      StepPlayers(w);
      SameIds(old(players), nextPlayerEntityId, players);
    }

    method StepPlayers(w: World)
      modifies this`players
      ensures AllTicked(w, old(players), players)
    {
      ghost var before := players;
      var todo := players.Keys;
      while todo != {}
        invariant todo <= players.Keys == before.Keys
        invariant forall id :: id in todo ==> players[id] == before[id]
        invariant forall id :: id in before && id !in todo ==> players[id] == Ticked(w, before[id])
        decreases todo
      {
        var id :| id in todo;
        var player := TickPlayer(w, players[id]);
        players := players[id := player];
        todo := todo - {id};
      }
    }

    method BuildSnapshot() returns (out: Snapshot)
      ensures out.tick == tick && out.timeOfDay == clock.timeOfDay
      ensures exists ids :: Lists(out.entities, ids, players)
    {
      var entities := ListPlayers();
      out := Snapshot(tick, clock.timeOfDay, entities);
    }

    method ListPlayers() returns (entities: seq<EntityState>)
      ensures exists ids :: Lists(entities, ids, players)
    {
      entities := [];
      ghost var ids := [];
      var todo := players.Keys;
      while todo != {}
        invariant todo <= players.Keys && |entities| == |ids|
        invariant forall j, k :: 0 <= j < k < |ids| ==> ids[j] < ids[k]
        invariant forall k, id :: 0 <= k < |ids| && id in todo ==> ids[k] < id
        invariant forall id :: id in players <==> id in todo || id in ids
        invariant forall k :: 0 <= k < |ids| ==> ids[k] in players && entities[k] == StateOf(players[ids[k]])
        decreases todo
      {
        ghost var least := LeastExists(todo);
        var id :| id in todo && forall k :: k in todo ==> id <= k;
        entities, ids := entities + [StateOf(players[id])], ids + [id];
        todo := todo - {id};
      }
      assert Lists(entities, ids, players);
    }

    method SetTimeOfDay(timeOfDay: real, now: real)
      modifies this`clock
      ensures clock == Reanchored(old(clock).(timeOfDay := Wrapped(timeOfDay)), now)
    {
      clock := clock.(timeOfDay := timeOfDay - timeOfDay.Floor as real);
      Reanchor(now);
    }

    method SetTimeSpeed(speed: real, now: real)
      modifies this`clock
      ensures clock == Sped(old(clock), now, speed) && clock.timeOfDay == old(clock).timeOfDay
    {
      Reanchor(now);
      clock := clock.(speed := speed);
    }

    method ResetClock(secondsToday: nat, now: real)
      modifies this`clock
      ensures clock == Reset(secondsToday, now)
    {
      clock := clock.(speed := 1.0, timeOfDay := secondsToday as real / 86400.0);
      Reanchor(now);
    }

    method Reanchor(now: real)
      modifies this`clock
      ensures clock == Reanchored(old(clock), now)
    {
      clock := clock.(anchorReal := now, anchorTime := clock.timeOfDay);
    }
  }

  // ------------------------------------------------------ who is in a snapshot

  /** Of each player there is one entity with its entity id, and it is that player's: its
      place, its velocity and the input it acknowledges. */
  lemma OneEntityEach(entities: seq<EntityState>, ids: seq<nat>, players: Players, next: nat, id: nat) returns (k: nat)
    requires Lists(entities, ids, players) && Ids(players, next) && id in players
    ensures k < |entities| && entities[k].id == players[id].entityId
    ensures forall j :: 0 <= j < |entities| && entities[j].id == players[id].entityId ==> j == k
    ensures entities[k].state.position == players[id].body.position
    ensures entities[k].state.velocity == players[id].body.velocity
    ensures entities[k].state.lastInputSequence == players[id].lastInputSequence
  {
    k :| 0 <= k < |ids| && ids[k] == id;
    forall j | 0 <= j < |entities| && entities[j].id == players[id].entityId ensures j == k {
      assert players[ids[j]].entityId == players[id].entityId;
      assert ids[j] == id;
    }
  }

  // ------------------------------------------------- a player served in order

  /** Each input set, then one step. */
  ghost function Served(w: World, p: Player, inputs: seq<Input>): Player
    decreases |inputs|
  {
    if inputs == [] then p else Served(w, Ticked(w, WithInput(p, inputs[0])), inputs[1..])
  }

  ghost predicate Numbered(inputs: seq<Input>, first: nat) {
    forall k :: 0 <= k < |inputs| ==> inputs[k].sequence == first + k
  }

  /** The authoritative character is the one the client would compute, and the
      acknowledgement counts what went into it. */
  lemma {:induction false} ServedRuns(w: World, p: Player, inputs: seq<Input>, first: nat)
    requires Numbered(inputs, first) && p.input.sequence <= first
    ensures Served(w, p, inputs).body == Run(w, p.body, inputs)
    ensures inputs != [] ==> Served(w, p, inputs).lastInputSequence == first + |inputs| - 1
    decreases |inputs|
  {
    if inputs != [] {
      var p' := Ticked(w, WithInput(p, inputs[0]));
      ServedRuns(w, p', inputs[1..], first + 1);
      if |inputs| == 1 { assert inputs[1..] == []; }
    }
  }

  // ---------------------------------------------------------- jumps and spawns

  /** Ticks without a new input. */
  ghost function Idled(w: World, p: Player, n: nat): Player
    decreases n
  {
    if n == 0 then p else Idled(w, Ticked(w, p), n - 1)
  }

  ghost function Held(i: Input, n: nat): (inputs: seq<Input>)
    ensures |inputs| == n
  {
    seq(n, _ => i)
  }

  /** Until the next input arrives the character goes on as the last one says, but it
      jumps only once. */
  lemma {:induction false} JumpsOnce(w: World, p: Player, n: nat)
    ensures Idled(w, p, n + 1).body == Run(w, Step(w, p.body, p.input), Held(p.input.(jump := false), n))
    ensures Idled(w, p, n + 1).lastInputSequence == p.input.sequence
    decreases n
  {
    if n > 0 {
      JumpsOnce(w, Ticked(w, p), n - 1);
      assert Held(p.input.(jump := false), n)[1..] == Held(p.input.(jump := false), n - 1);
    }
  }

  /** A new character hangs 0.2 over where it will stand, at rest, on an ellipse round
      (0, 6), and acknowledges nothing. */
  lemma SpawnPlace(w: World, entityId: nat, count: nat)
    requires var a := count as real * 1.2; w.sin(a) * w.sin(a) + w.cos(a) * w.cos(a) == 1.0
    ensures var p := Spawned(w, entityId, count); var b := p.body;
            && b.position.y == w.ground(b.position.x, b.position.z) + 0.85 + 0.2
            && 4.0 * (b.position.x * b.position.x) + 9.0 * ((b.position.z - 6.0) * (b.position.z - 6.0)) == 36.0
            && b.velocity == Zero() && !b.grounded && p.lastInputSequence == 0 && p.input.sequence == 0
  {
    var a := count as real * 1.2;
    var s, c := w.sin(a), w.cos(a);
    assert 4.0 * (c * 3.0 * (c * 3.0)) + 9.0 * (s * 2.0 * (s * 2.0)) == 36.0 * (s * s + c * c);
  }
}

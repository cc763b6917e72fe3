/** The functional ship game: a world value with an entity arena, maps of player and enemy
    ships, coordinates, a tick counter and a LIFO event stack. Every transition returns a
    new world; a Rust panic becomes a `Failure` carrying the panic message. */
module Tangy {
  import opened Wrappers
  import opened Grid
  import opened Keys

  datatype PlayerShip = PlayerShip(key: Key)
  datatype EnemyShip = EnemyShip(key: Key)

  /** The three events of the game. */
  datatype WorldEvent =
    | EnemyShipsMoved
    | EnemyShipMoved(key: Key, dir: Direction)
    | PlayerShipMoved(dir: Direction)

  /** The world; `nextKey` stands for the entity arena (every key below it has been issued,
      none above it). */
  datatype World = World(events: seq<WorldEvent>, nextKey: nat, coords: map<Key, Coords>,
                         ticks: nat, playerShips: map<Key, PlayerShip>,
                         enemyShips: map<Key, EnemyShip>)

  /** The `expect` message of a player move without a player ship. */
  const NO_PLAYER_SHIP: string := "Found no player ship"
  /** The panic of indexing a secondary map with a key it does not hold. */
  const INVALID_KEY: string := "invalid SecondaryMap key used"

  /** The world's invariant: every key was issued by the arena, every ship has coordinates,
      no key is both a player and an enemy ship, and each ship record names its own key. */
  ghost predicate Wf(w: World) {
    && (forall k :: k in w.coords ==> k < w.nextKey)
    && w.playerShips.Keys <= w.coords.Keys && w.enemyShips.Keys <= w.coords.Keys
    && w.playerShips.Keys !! w.enemyShips.Keys
    && (forall k :: k in w.playerShips ==> w.playerShips[k].key == k)
    && (forall k :: k in w.enemyShips ==> w.enemyShips[k].key == k)
  }

  /** The cells a ship may occupy: every column but the outermost two, every row. */
  predicate InField(p: (int, int)) {
    1 <= p.0 <= GRID_WIDTH - 2 && 0 <= p.1 <= GRID_HEIGHT - 1
  }

  /** Every position of the world lies in the ship field. */
  ghost predicate AllInField(w: World) {
    forall k :: k in w.coords ==> InField(w.coords[k])
  }

  /** World::new: the empty world at tick 0. */
  function NewWorld(): (w: World)
    ensures Wf(w) && AllInField(w)
    ensures w.events == [] && w.ticks == 0 && w.playerShips == map[] && w.enemyShips == map[]
  {
    World([], 0, map[], 0, map[], map[])
  }

  /** A ship's move (the shared body of with_player_ship_moved and with_enemy_ship_moved):
      one cell in `dir`, refused when that would leave the ship field. From a cell of the
      field it moves exactly when the target is in the field, so it stays in the field;
      it either stays put or moves one cell in `dir`, changing one axis by one. */
  function ShipCoordsAfterMove(c: Coords, dir: Direction): (r: Coords)
    ensures InField(c) ==> InField(r)
    ensures InField(c) ==> (r != c <==> InField(Shifted(c, dir)))
    ensures r == c || (r == Shifted(c, dir) && Adjacent(c, r))
  {
    var (x, y) := c;
    match dir
    case Up => if y > 0 then (x, y - 1) else (x, y)
    case Down => if y < GRID_HEIGHT - 1 then (x, y + 1) else (x, y)
    case Left => if x > 1 then (x - 1, y) else (x, y)
    case Right => if x < GRID_WIDTH - 2 then (x + 1, y) else (x, y)
  }

  /** The keys of the player ships and of the enemy ships in iteration order. */
  function PlayerKeys(w: World): seq<Key> {
    KeysBelow(w.playerShips.Keys, w.nextKey)
  }

  function EnemyKeys(w: World): seq<Key> {
    KeysBelow(w.enemyShips.Keys, w.nextKey)
  }

  /** In a well-formed world the iteration finds a player ship exactly when there is one. */
  lemma PlayerKeysEmpty(w: World)
    ensures Wf(w) ==> (PlayerKeys(w) == [] <==> w.playerShips == map[])
  {
    if Wf(w) && w.playerShips != map[] {
      var k :| k in w.playerShips.Keys;
      KeysBelowCovers(w.playerShips.Keys, w.nextKey, k);
    }
    if PlayerKeys(w) != [] {
      assert PlayerKeys(w)[0] in w.playerShips.Keys;
    }
  }

  /** with_event: pushes `evt` on top of the stack; nothing else changes. */
  function WithEvent(w: World, evt: WorldEvent): (r: World)
    ensures |r.events| == |w.events| + 1 && r.events[|w.events|] == evt
    ensures r.events[..|w.events|] == w.events
    ensures r.(events := w.events) == w
    ensures Wf(w) ==> Wf(r)
  {
    var events := w.events + [evt];
    w.(events := events)
  }

  /** with_player_ship_added_at: a player ship under a fresh key at `c`. */
  function WithPlayerShipAddedAt(w: World, c: Coords): (r: World)
    ensures Wf(w) ==> w.nextKey !in w.coords && Wf(r)
    ensures r.nextKey == w.nextKey + 1 && r.coords.Keys == w.coords.Keys + {w.nextKey}
    ensures r.coords[w.nextKey] == c && forall k :: k in w.coords && k != w.nextKey ==>
                                           r.coords[k] == w.coords[k]
    ensures r.playerShips.Keys == w.playerShips.Keys + {w.nextKey}
    ensures r.playerShips[w.nextKey] == PlayerShip(w.nextKey)
    ensures forall k :: k in w.playerShips && k != w.nextKey ==> r.playerShips[k] == w.playerShips[k]
    ensures r.enemyShips == w.enemyShips && r.events == w.events && r.ticks == w.ticks
  {
    var key := w.nextKey;
    var ship := PlayerShip(key);
    w.(nextKey := key + 1, playerShips := w.playerShips[key := ship],
       coords := w.coords[key := c])
  }

  /** with_enemy_ship_added_at: an enemy ship under a fresh key at `c`. */
  function WithEnemyShipAddedAt(w: World, c: Coords): (r: World)
    ensures Wf(w) ==> w.nextKey !in w.coords && Wf(r)
    ensures r.nextKey == w.nextKey + 1 && r.coords.Keys == w.coords.Keys + {w.nextKey}
    ensures r.coords[w.nextKey] == c && forall k :: k in w.coords && k != w.nextKey ==>
                                           r.coords[k] == w.coords[k]
    ensures r.enemyShips.Keys == w.enemyShips.Keys + {w.nextKey}
    ensures r.enemyShips[w.nextKey] == EnemyShip(w.nextKey)
    ensures forall k :: k in w.enemyShips && k != w.nextKey ==> r.enemyShips[k] == w.enemyShips[k]
    ensures r.playerShips == w.playerShips && r.events == w.events && r.ticks == w.ticks
  {
    var key := w.nextKey;
    var ship := EnemyShip(key);
    w.(nextKey := key + 1, enemyShips := w.enemyShips[key := ship],
       coords := w.coords[key := c])
  }

  /** The world with only the position under `key` moved in `dir`. It keeps the invariant and
      the ship field, and leaves every other position where it was. */
  function MovedShip(w: World, key: Key, dir: Direction): (r: World)
    requires key in w.coords
    ensures r.coords.Keys == w.coords.Keys
    ensures r.coords[key] == ShipCoordsAfterMove(w.coords[key], dir)
    ensures forall k :: k in w.coords && k != key ==> r.coords[k] == w.coords[k]
    ensures r.(coords := w.coords) == w
    ensures Wf(w) ==> Wf(r)
    ensures AllInField(w) ==> AllInField(r)
  {
    w.(coords := w.coords[key := ShipCoordsAfterMove(w.coords[key], dir)])
  }

  /** with_player_ship_moved: moves the first player ship in iteration order; it fails with
      the `expect` message when there is none, and with an index panic when that ship has
      no coordinates. */
  function WithPlayerShipMoved(w: World, dir: Direction): (r: Result<World>)
    ensures r == Failure(NO_PLAYER_SHIP) <==> PlayerKeys(w) == []
    ensures r.Success? ==>
              && PlayerKeys(w) != []
              && w.playerShips[PlayerKeys(w)[0]].key in w.coords
              && r.value == MovedShip(w, w.playerShips[PlayerKeys(w)[0]].key, dir)
    ensures Wf(w) ==> (r.Success? <==> w.playerShips != map[])
  {
    PlayerKeysEmpty(w);
    var ks := PlayerKeys(w);
    if |ks| == 0 then
      Failure(NO_PLAYER_SHIP)
    else
      var playerShip := w.playerShips[ks[0]];
      if playerShip.key !in w.coords then Failure(INVALID_KEY)
      else Success(MovedShip(w, playerShip.key, dir))
  }

  /** with_enemy_ship_moved: moves the ship under `enemyKey`; it fails with an index panic
      when that key has no coordinates. */
  function WithEnemyShipMoved(w: World, enemyKey: Key, dir: Direction): (r: Result<World>)
    ensures r.Success? <==> enemyKey in w.coords
    ensures r.Failure? ==> r.error == INVALID_KEY
    ensures r.Success? ==> r.value == MovedShip(w, enemyKey, dir)
  {
    if enemyKey !in w.coords then Failure(INVALID_KEY)
    else Success(MovedShip(w, enemyKey, dir))
  }

  /** with_player_ship_move_requested: only queues the move. */
  function WithPlayerShipMoveRequested(w: World, dir: Direction): (r: World)
    ensures r.events == w.events + [PlayerShipMoved(dir)] && r.(events := w.events) == w
  {
    WithEvent(w, PlayerShipMoved(dir))
  }

  /** What the for loop of the EnemyShipsMoved arm pushes: one downward move per key, in
      the order of `ks`. */
  function EnemyMovesFor(ks: seq<Key>): (r: seq<WorldEvent>)
    ensures |r| == |ks| && forall i :: 0 <= i < |ks| ==> r[i] == EnemyShipMoved(ks[i], Down)
  {
    if ks == [] then [] else EnemyMovesFor(ks[..|ks| - 1]) + [EnemyShipMoved(ks[|ks| - 1], Down)]
  }

  /** The number of EnemyShipsMoved events in `s`: the first part of the stack's rank. */
  function Batches(s: seq<WorldEvent>): nat {
    if s == [] then 0
    else Batches(s[..|s| - 1]) + (if s[|s| - 1].EnemyShipsMoved? then 1 else 0)
  }

  lemma {:induction false} BatchesAppend(s: seq<WorldEvent>, t: seq<WorldEvent>)
    ensures Batches(s + t) == Batches(s) + Batches(t)
    decreases |t|
  {
    if t == [] {
      assert s + t == s;
    } else {
      assert (s + t)[..|s + t| - 1] == s + t[..|t| - 1];
      BatchesAppend(s, t[..|t| - 1]);
    }
  }

  lemma {:induction false} NoBatches(ks: seq<Key>)
    ensures Batches(EnemyMovesFor(ks)) == 0
    decreases |ks|
  {
    if ks != [] {
      var r := EnemyMovesFor(ks);
      assert r[..|r| - 1] == EnemyMovesFor(ks[..|ks| - 1]);
      NoBatches(ks[..|ks| - 1]);
    }
  }

  /** Running the event `evt` on world `w` (whose stack no longer holds it). */
  function Handle(w: World, evt: WorldEvent): (r: Result<World>)
    ensures r.Success? ==>
              && r.value.nextKey == w.nextKey && r.value.ticks == w.ticks
              && r.value.playerShips == w.playerShips && r.value.enemyShips == w.enemyShips
              && r.value.coords.Keys == w.coords.Keys
              && (Wf(w) ==> Wf(r.value))
              && (AllInField(w) ==> AllInField(r.value))
    ensures r.Success? && evt.EnemyShipsMoved? ==>
              r.value.events == w.events + EnemyMovesFor(EnemyKeys(w))
    ensures r.Success? && !evt.EnemyShipsMoved? ==> r.value.events == w.events
  {
    match evt
    case EnemyShipsMoved =>
      Success(w.(events := w.events + EnemyMovesFor(EnemyKeys(w))))
    case EnemyShipMoved(key, dir) => WithEnemyShipMoved(w, key, dir)
    case PlayerShipMoved(dir) => WithPlayerShipMoved(w, dir)
  }

  /** The stack's rank (EnemyShipsMoved events first, then length) goes down. */
  ghost predicate Lower(a: seq<WorldEvent>, b: seq<WorldEvent>) {
    Batches(a) < Batches(b) || (Batches(a) == Batches(b) && |a| < |b|)
  }

  /** with_latest_event_processed: an empty stack leaves the world as it is; otherwise the
      top event is popped and run. A run lowers the stack's rank and keeps the arena, the
      clock and the ship maps. */
  function WithLatestEventProcessed(w: World): (r: Result<World>)
    ensures w.events == [] ==> r == Success(w)
    ensures w.events != [] ==>
              r == Handle(w.(events := w.events[..|w.events| - 1]), w.events[|w.events| - 1])
    ensures r.Success? && w.events != [] ==> Lower(r.value.events, w.events)
  {
    if |w.events| == 0 then Success(w)
    else
      var rest := w.events[..|w.events| - 1];
      var evt := w.events[|w.events| - 1];
      var r := Handle(w.(events := rest), evt);
      assert w.events == rest + [evt];
      BatchesAppend(rest, [evt]);
      BatchesAppend(rest, EnemyMovesFor(EnemyKeys(w)));
      NoBatches(EnemyKeys(w));
      r
  }

  /** The events of a stack whose top is the most recently pushed one run first. */
  lemma PushedRunsFirst(w: World, evt: WorldEvent)
    ensures WithLatestEventProcessed(WithEvent(w, evt)) == Handle(w, evt)
  {
    var v := WithEvent(w, evt);
    assert v.(events := v.events[..|v.events| - 1]) == w;
  }

  /** A move request runs the player's move when it is processed. */
  lemma RequestedMoveRuns(w: World, dir: Direction)
    ensures WithLatestEventProcessed(WithPlayerShipMoveRequested(w, dir)) ==
            WithPlayerShipMoved(w, dir)
  {
    PushedRunsFirst(w, PlayerShipMoved(dir));
  }

  /** with_events_processed as a function: events are processed until the stack is empty or
      one panics. A drained world has an empty stack and the same arena, clock and ships;
      the invariant and the ship field are kept. */
  function Drain(w: World): (r: Result<World>)
    ensures r.Success? ==>
              && r.value.events == []
              && r.value.nextKey == w.nextKey && r.value.ticks == w.ticks
              && r.value.playerShips == w.playerShips && r.value.enemyShips == w.enemyShips
              && r.value.coords.Keys == w.coords.Keys
              && (Wf(w) ==> Wf(r.value))
              && (AllInField(w) ==> AllInField(r.value))
    decreases Batches(w.events), |w.events|
  {
    if w.events == [] then Success(w)
    else
      match WithLatestEventProcessed(w)
      case Failure(e) => Failure(e)
      case Success(w') => Drain(w')
  }

  /** with_events_processed: the while loop, stopping at the first panic. */
  method WithEventsProcessed(w: World) returns (r: Result<World>)
    ensures r == Drain(w)
    ensures r.Success? ==> r.value.events == []
  {
    var world := w;
    while |world.events| > 0
      invariant Drain(world) == Drain(w)
      decreases Batches(world.events), |world.events|
    {
      var next := WithLatestEventProcessed(world);
      if next.Failure? {
        return next;
      }
      world := next.value;
    }
    return Success(world);
  }

  /** ticked: the clock moves on, EnemyShipsMoved is pushed on top of whatever is pending,
      and the stack is drained. */
  function Ticked(w: World): (r: Result<World>)
    ensures r.Success? ==> r.value.ticks == w.ticks + 1 && r.value.events == []
    ensures r.Success? ==> r.value.playerShips == w.playerShips &&
                           r.value.enemyShips == w.enemyShips
    ensures r.Success? && Wf(w) ==> Wf(r.value)
    ensures r.Success? && AllInField(w) ==> AllInField(r.value)
  {
    var world := w.(ticks := w.ticks + 1);
    Drain(WithEvent(world, EnemyShipsMoved))
  }

  /** Applies the downward moves of `ks` from the last key to the first, as the stack runs
      them. */
  ghost function MovedDown(coords: map<Key, Coords>, ks: seq<Key>): map<Key, Coords>
    requires forall i :: 0 <= i < |ks| ==> ks[i] in coords
  {
    if ks == [] then coords
    else
      var k := ks[|ks| - 1];
      MovedDown(coords[k := ShipCoordsAfterMove(coords[k], Down)], ks[..|ks| - 1])
  }

  /** Every enemy ship one cell Down (clamped at the last row); nothing else moves. */
  ghost function EnemiesDown(w: World): map<Key, Coords> {
    map k | k in w.coords :: if k in w.enemyShips then ShipCoordsAfterMove(w.coords[k], Down)
                             else w.coords[k]
  }

  /** Draining a stack whose top part is the downward moves of `ks` runs all those moves
      before anything below them. */
  lemma {:induction false} DrainMoves(v: World, rest: seq<WorldEvent>, ks: seq<Key>)
    requires v.events == rest + EnemyMovesFor(ks)
    requires forall i :: 0 <= i < |ks| ==> ks[i] in v.coords
    ensures Drain(v) == Drain(v.(events := rest, coords := MovedDown(v.coords, ks)))
    decreases |ks|
  {
    if ks == [] {
      assert v.events == rest;
    } else {
      var k := ks[|ks| - 1];
      var init := ks[..|ks| - 1];
      assert v.events[..|v.events| - 1] == rest + EnemyMovesFor(init);
      var v' := MovedShip(v.(events := rest + EnemyMovesFor(init)), k, Down);
      assert WithLatestEventProcessed(v) == Success(v');
      DrainMoves(v', rest, init);
      assert v'.(events := rest, coords := MovedDown(v'.coords, init)) ==
             v.(events := rest, coords := MovedDown(v.coords, ks));
    }
  }

  /** Moving down each of a list of distinct keys moves exactly those keys down once. */
  lemma {:induction false} MovedDownOnce(coords: map<Key, Coords>, ks: seq<Key>)
    requires forall i :: 0 <= i < |ks| ==> ks[i] in coords
    requires forall i, j :: 0 <= i < j < |ks| ==> ks[i] != ks[j]
    ensures MovedDown(coords, ks) ==
            map k | k in coords :: if k in ks then ShipCoordsAfterMove(coords[k], Down)
                                   else coords[k]
    decreases |ks|
  {
    if ks != [] {
      var k := ks[|ks| - 1];
      var init := ks[..|ks| - 1];
      var c' := coords[k := ShipCoordsAfterMove(coords[k], Down)];
      MovedDownOnce(c', init);
      assert k !in init;
      assert forall j :: j in ks <==> j in init || j == k;
    }
  }

  /** ticked's first step: popping EnemyShipsMoved pushes the enemies' downward moves on
      top of what was pending. */
  lemma TickedFirstStep(w: World)
    ensures Ticked(w) ==
            Drain(w.(ticks := w.ticks + 1, events := w.events + EnemyMovesFor(EnemyKeys(w))))
  {
    var world := w.(ticks := w.ticks + 1);
    var w1 := WithEvent(world, EnemyShipsMoved);
    var w2 := world.(events := w.events + EnemyMovesFor(EnemyKeys(w)));
    PushedRunsFirst(world, EnemyShipsMoved);
    assert Handle(world, EnemyShipsMoved) == Success(w2);
    assert w1.events != [] && WithLatestEventProcessed(w1) == Success(w2);
  }

  /** In a well-formed world the enemy keys in iteration order are distinct and are
      exactly the enemy ships' keys, each with coordinates. */
  lemma EnemyKeysExactly(w: World)
    requires Wf(w)
    ensures forall i, j :: 0 <= i < j < |EnemyKeys(w)| ==> EnemyKeys(w)[i] != EnemyKeys(w)[j]
    ensures forall k :: k in EnemyKeys(w) <==> k in w.enemyShips
    ensures forall i :: 0 <= i < |EnemyKeys(w)| ==> EnemyKeys(w)[i] in w.coords
  {
    KeysBelowExactly(w.enemyShips.Keys, w.nextKey);
  }

  /** ticked runs the moves of every enemy ship, one cell Down each, before any event that
      was pending: the result is the drain of the pending stack on the world whose enemies
      have moved and whose clock has advanced. */
  lemma TickedMovesEnemiesFirst(w: World)
    requires Wf(w)
    ensures Ticked(w) == Drain(w.(ticks := w.ticks + 1, coords := EnemiesDown(w)))
  {
    var ks := EnemyKeys(w);
    var w2 := w.(ticks := w.ticks + 1, events := w.events + EnemyMovesFor(ks));
    TickedFirstStep(w);
    EnemyKeysExactly(w);
    DrainMoves(w2, w.events, ks);
    EnemiesDownInOrder(w);
  }

  /** The enemies' moves in iteration order, run as the stack runs them, move every enemy
      ship down once. */
  lemma EnemiesDownInOrder(w: World)
    requires Wf(w)
    ensures forall i :: 0 <= i < |EnemyKeys(w)| ==> EnemyKeys(w)[i] in w.coords
    ensures MovedDown(w.coords, EnemyKeys(w)) == EnemiesDown(w)
  {
    EnemyKeysExactly(w);
    MovedDownOnce(w.coords, EnemyKeys(w));
  }

  /** With nothing pending, ticked moves every enemy ship one cell Down, leaves every other
      position, advances the clock by one and ends with an empty stack. */
  lemma TickedIdle(w: World)
    requires Wf(w) && w.events == []
    ensures Ticked(w) == Success(w.(ticks := w.ticks + 1, coords := EnemiesDown(w)))
  {
    TickedMovesEnemiesFirst(w);
  }

  /** A player ship that has just been added can be moved. */
  lemma AddedPlayerCanMove(w: World, c: Coords, dir: Direction)
    requires Wf(w)
    ensures WithPlayerShipMoved(WithPlayerShipAddedAt(w, c), dir).Success?
  {
  }
}

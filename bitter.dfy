/** The event-cascade villager simulation. A `World` keeps an arena of entity keys with
    secondary maps per attribute, a tick counter, an id counter and a LIFO stack of
    pending events; every twentieth tick it seeds four batch events and drains the stack. */
module Bitter {
  import opened Wrappers
  import opened Grid
  import opened Keys
  import opened Random
  import opened BitterEntities
  import opened BitterStage
  import WE = BitterEvents

  /** A villager needs to eat only below this satiation, so satiation never exceeds it. */
  const MAX_SATIATION: nat := 5
  /** A villager that last ate this many ticks ago or longer no longer looks for food. */
  const HUNGER_WINDOW: nat := 40
  /** The minimum number of ticks between two growths of one farm. */
  const GROWTH_COOLDOWN: nat := 20
  /** A cascade runs when the tick after the current one is a multiple of this. */
  const CASCADE_INTERVAL: nat := 20

  /** Whether advancing to tick `t` runs a cascade: `t + 1` is a multiple of the interval,
      that is `t` is 19, 39, 59, and so on. */
  function CascadeDue(t: nat): (due: bool)
    ensures due <==> t % CASCADE_INTERVAL == CASCADE_INTERVAL - 1
    ensures due ==> t >= CASCADE_INTERVAL - 1
  {
    (t + 1) % CASCADE_INTERVAL == 0
  }

  /** The growth candidates around `c`: for each direction of `ds` that allows a move, the
      cell the move reaches, in the order of `ds`. Each is an orthogonal neighbour of `c`,
      interior when `c` is, and every allowed move is listed. */
  function NeighboursIn(c: Coords, ds: seq<Direction>): (r: seq<Coords>)
    ensures forall i :: 0 <= i < |r| ==> Adjacent(c, r[i]) && (Interior(c) ==> Interior(r[i]))
    ensures forall d :: d in ds && CanMoveInDir(c, d) ==> CoordsAfterMove(c, d) in r
    ensures |r| <= |ds|
  {
    if ds == [] then []
    else NeighboursIn(c, ds[..|ds| - 1]) + Reached(c, ds[|ds| - 1])
  }

  /** The target of the move from `c` in direction `d`, if that move is allowed. */
  function Reached(c: Coords, d: Direction): seq<Coords> {
    if CanMoveInDir(c, d) then [CoordsAfterMove(c, d)] else []
  }

  /** The growth candidates come in the order of the direction list: up, down, left,
      right. */
  lemma NeighboursInOrder(c: Coords)
    ensures NeighboursIn(c, CARDINAL_DIRECTIONS) ==
            Reached(c, Up) + Reached(c, Down) + Reached(c, Left) + Reached(c, Right)
  {
    var ds := CARDINAL_DIRECTIONS;
    assert ds[..3] == [Up, Down, Left] && [Up, Down, Left][..2] == [Up, Down];
    assert [Up, Down][..1] == [Up] && [Up][..0] == [];
    assert NeighboursIn(c, [Up]) == Reached(c, Up);
    assert NeighboursIn(c, [Up, Down]) == Reached(c, Up) + Reached(c, Down);
    assert NeighboursIn(c, [Up, Down, Left]) == Reached(c, Up) + Reached(c, Down) + Reached(c, Left);
  }

  /** `cs` with every cell of `occupied` dropped, order kept (Rust's `retain`). */
  function Without(cs: seq<Coords>, occupied: set<Coords>): (r: seq<Coords>)
    ensures forall i :: 0 <= i < |r| ==> r[i] in cs && r[i] !in occupied
    ensures |r| <= |cs|
  {
    if cs == [] then []
    else
      var c := cs[|cs| - 1];
      Without(cs[..|cs| - 1], occupied) + (if c in occupied then [] else [c])
  }

  /** Retaining keeps every cell that is not occupied. */
  lemma {:induction false} WithoutKeeps(cs: seq<Coords>, occupied: set<Coords>, c: Coords)
    requires c in cs && c !in occupied
    ensures c in Without(cs, occupied)
  {
    if c != cs[|cs| - 1] {
      WithoutKeeps(cs[..|cs| - 1], occupied, c);
    }
  }

  /** Retaining in two passes is retaining once against both sets of cells. */
  lemma {:induction false} WithoutTwice(cs: seq<Coords>, a: set<Coords>, b: set<Coords>)
    ensures Without(Without(cs, a), b) == Without(cs, a + b)
  {
    if cs != [] {
      var init, c := cs[..|cs| - 1], cs[|cs| - 1];
      WithoutTwice(init, a, b);
      var once := Without(init, a);
      if c in a {
        assert Without(cs, a) == once;
      } else {
        assert Without(cs, a) == once + [c];
        assert (once + [c])[..|once + [c]| - 1] == once;
      }
    }
  }

  /** Retaining against no cells keeps everything. */
  lemma {:induction false} WithoutNothing(cs: seq<Coords>)
    ensures Without(cs, {}) == cs
  {
    if cs != [] {
      WithoutNothing(cs[..|cs| - 1]);
      assert cs == cs[..|cs| - 1] + [cs[|cs| - 1]];
    }
  }

  /** Once nothing is left, retaining against more cells leaves nothing either. */
  lemma {:induction false} WithoutNoneLeft(cs: seq<Coords>, a: set<Coords>, b: set<Coords>)
    requires Without(cs, a) == [] && a <= b
    ensures Without(cs, b) == []
  {
    if cs != [] {
      var init, c := cs[..|cs| - 1], cs[|cs| - 1];
      assert Without(init, a) == [] && c in a;
      WithoutNoneLeft(init, a, b);
    }
  }

  /** The cells held by the given keys. */
  ghost function CellsOf(keys: set<Key>, coords: map<Key, Coords>): set<Coords> {
    set k | k in keys && k in coords :: coords[k]
  }

  lemma CellsOfAdd(keys: set<Key>, coords: map<Key, Coords>, k: Key)
    requires k in coords
    ensures CellsOf(keys + {k}, coords) == CellsOf(keys, coords) + {coords[k]}
  {
  }

  /** The cells where a farm at `c` may grow: its candidates not held by any farm. */
  ghost function FreeCells(c: Coords, farmCells: set<Coords>): (r: seq<Coords>)
    ensures forall i :: 0 <= i < |r| ==>
      Adjacent(c, r[i]) && r[i] !in farmCells && (Interior(c) ==> Interior(r[i]))
  {
    Without(NeighboursIn(c, CARDINAL_DIRECTIONS), farmCells)
  }

  /** The first half of the growth rule: the cells reachable from `c` by one allowed move,
      scanning the directions in order. */
  method PossibleCoords(c: Coords) returns (all: seq<Coords>)
    ensures all == NeighboursIn(c, CARDINAL_DIRECTIONS)
  {
    all := [];
    for i := 0 to |CARDINAL_DIRECTIONS|
      invariant all == NeighboursIn(c, CARDINAL_DIRECTIONS[..i])
    {
      var dir := CARDINAL_DIRECTIONS[i];
      assert CARDINAL_DIRECTIONS[..i + 1][..i] == CARDINAL_DIRECTIONS[..i];
      if CanMoveInDir(c, dir) {
        all := all + [CoordsAfterMove(c, dir)];
      }
    }
    assert CARDINAL_DIRECTIONS[..4] == CARDINAL_DIRECTIONS;
  }

  // The world's invariants, stated over the field values so that a change to one field
  // leaves the others' facts in place.

  /** The world's invariant: every key was issued by the arena; every villager, farm and
      grave has coordinates and every villager a satiation; the role maps are disjoint;
      each record names its own key; recorded ticks are not in the future; ids were issued
      by the id counter and villager ids are unique; satiation is at most 5. */
  ghost predicate WorldOk(nextKey: nat, coords: map<Key, Coords>, lastId: nat,
                          deathMarkers: map<Key, DeathMarker>, farms: map<Key, Farm>, ticks: nat,
                          satiation: map<Key, U8>, villagers: map<Key, Villager>)
  {
    && (forall k :: k in coords ==> k < nextKey)
    && villagers.Keys <= coords.Keys && villagers.Keys <= satiation.Keys
    && satiation.Keys <= coords.Keys
    && farms.Keys <= coords.Keys && deathMarkers.Keys <= coords.Keys
    && villagers.Keys !! farms.Keys && villagers.Keys !! deathMarkers.Keys
    && farms.Keys !! deathMarkers.Keys
    && (forall k :: k in villagers ==>
          villagers[k].key == k && villagers[k].lastAte <= ticks && 0 < villagers[k].id <= lastId)
    && (forall k :: k in farms ==>
          farms[k].key == k && farms[k].lastGrew <= ticks && 0 < farms[k].id <= lastId)
    && (forall k :: k in deathMarkers ==> deathMarkers[k].key == k)
    && (forall k :: k in satiation ==> satiation[k] <= MAX_SATIATION)
    && (forall k1, k2 :: k1 in villagers && k2 in villagers && k1 != k2 ==>
          villagers[k1].id != villagers[k2].id)
  }

  /** No two farms stand on the same cell. */
  ghost predicate Apart(farms: map<Key, Farm>, coords: map<Key, Coords>) {
    forall k1, k2 :: k1 in farms && k2 in farms && k1 != k2 && k1 in coords && k2 in coords ==>
      coords[k1] != coords[k2]
  }

  /** Every recorded position lies in the interior of the grid. */
  ghost predicate AllInterior(coords: map<Key, Coords>) {
    forall k :: k in coords ==> Interior(coords[k])
  }

  /** What the world must satisfy for the events of a stage to be handled without a panic:
      every pending growth, harvest and move names a live farm or villager, each villager
      is harvested once, and the events a harvest or a hunger check left on top name a
      villager that is still there (or, for a death, still has coordinates) and is not
      harvested again; a pending FarmAdded is for a cell no farm is on, within the interior
      while every position is. */
  ghost predicate StageFits(st: Stage, farms: map<Key, Farm>, villagers: map<Key, Villager>,
                            satiation: map<Key, U8>, coords: map<Key, Coords>)
  {
    match st
    case Growing(g, a) =>
      && (forall i :: 0 <= i < |g| ==> g[i].FarmGrew? && g[i].key in farms)
      && (a.Some? ==> a.value !in CellsOf(farms.Keys, coords) &&
                      (AllInterior(coords) ==> Interior(a.value)))
    case Harvesting(h, l) =>
      && (forall i :: 0 <= i < |h| ==> h[i].VillagerHarvested? && h[i].key in villagers)
      && Distinct(h)
      && LeftoverFits(h, l, villagers, satiation, coords)
    case Moving(m) => forall i :: 0 <= i < |m| ==> m[i].VillagerMoved? && m[i].key in villagers
    case _ => true
  }

  ghost predicate LeftoverFits(h: seq<WE.WorldEvent>, l: Leftover, villagers: map<Key, Villager>,
                               satiation: map<Key, U8>, coords: map<Key, Coords>)
  {
    match l
    case Meal(_, v) =>
      v in villagers && v in satiation && satiation[v] < MAX_SATIATION &&
      WE.VillagerHarvested(v) !in h
    case Hunger(v) => v in villagers && WE.VillagerHarvested(v) !in h
    case Death(v) => v in coords && WE.VillagerHarvested(v) !in h
    case _ => true
  }

  /** Placing a villager (add_villager_at) under a fresh key and the next id, with
      satiation 1 and a meal at the current tick, keeps the world's invariant. */
  lemma VillagerInsertOk(nextKey: nat, coords: map<Key, Coords>, lastId: nat,
                         deathMarkers: map<Key, DeathMarker>, farms: map<Key, Farm>, ticks: nat,
                         satiation: map<Key, U8>, villagers: map<Key, Villager>, c: Coords)
    requires WorldOk(nextKey, coords, lastId, deathMarkers, farms, ticks, satiation, villagers)
    ensures WorldOk(nextKey + 1, coords[nextKey := c], lastId + 1, deathMarkers, farms, ticks,
                    satiation[nextKey := 1],
                    villagers[nextKey := Villager(lastId + 1, nextKey, ticks)])
  {
  }

  /** Placing a farm (add_farm_at) under a fresh key and the next id, grown at the current
      tick, keeps the world's invariant. */
  lemma FarmInsertOk(nextKey: nat, coords: map<Key, Coords>, lastId: nat,
                     deathMarkers: map<Key, DeathMarker>, farms: map<Key, Farm>, ticks: nat,
                     satiation: map<Key, U8>, villagers: map<Key, Villager>, c: Coords)
    requires WorldOk(nextKey, coords, lastId, deathMarkers, farms, ticks, satiation, villagers)
    ensures WorldOk(nextKey + 1, coords[nextKey := c], lastId + 1, deathMarkers,
                    farms[nextKey := Farm(lastId + 1, nextKey, ticks)], ticks, satiation, villagers)
  {
  }

  /** The maps World::new builds, one insertion at a time. */
  lemma InitialMaps()
    ensures map[][0 := (4, 4)][1 := (5, 4)][2 := (5, 5)][3 := (5, 6)] ==
            map[0 := (4, 4), 1 := (5, 4), 2 := (5, 5), 3 := (5, 6)]
    ensures map[][1 := Farm(2, 1, 0)][2 := Farm(3, 2, 0)][3 := Farm(4, 3, 0)] ==
            map[1 := Farm(2, 1, 0), 2 := Farm(3, 2, 0), 3 := Farm(4, 3, 0)]
    ensures map[][0 := 1] == map[0 := 1] && map[][0 := Villager(1, 0, 0)] == map[0 := Villager(1, 0, 0)]
  {
  }

  /** The world World::new builds is valid. */
  lemma InitialValid(coords: map<Key, Coords>, farms: map<Key, Farm>)
    requires coords == map[0 := (4, 4), 1 := (5, 4), 2 := (5, 5), 3 := (5, 6)]
    requires farms == map[1 := Farm(2, 1, 0), 2 := Farm(3, 2, 0), 3 := Farm(4, 3, 0)]
    ensures WorldOk(4, coords, 4, map[], farms, 0, map[0 := 1], map[0 := Villager(1, 0, 0)])
  {
  }

  /** In the world World::new builds the farms stand apart and every position is interior. */
  lemma InitialPlaces(coords: map<Key, Coords>, farms: map<Key, Farm>)
    requires coords == map[0 := (4, 4), 1 := (5, 4), 2 := (5, 5), 3 := (5, 6)]
    requires farms == map[1 := Farm(2, 1, 0), 2 := Farm(3, 2, 0), 3 := Farm(4, 3, 0)]
    ensures Apart(farms, coords) && AllInterior(coords)
  {
  }

  // A reference definition of process_events over the values of the fields: what one
  // handler does, and what draining a whole stack does.

  /** The fields a handler may change, with the number of random draws taken so far. */
  datatype Snapshot = Snapshot(nextKey: nat, coords: map<Key, Coords>, lastId: nat,
                               deathMarkers: map<Key, DeathMarker>, farms: map<Key, Farm>,
                               satiation: map<Key, U8>, villagers: map<Key, Villager>,
                               drawn: nat)

  /** The farms' and the villagers' keys in iteration order. */
  function FarmOrder(s: Snapshot): seq<Key> {
    KeysBelow(s.farms.Keys, s.nextKey)
  }

  function VillagerOrder(s: Snapshot): seq<Key> {
    KeysBelow(s.villagers.Keys, s.nextKey)
  }

  /** The fan-outs of the three batch events, in iteration order: one growth per farm. */
  function Growths(s: Snapshot): (r: seq<WE.WorldEvent>)
    ensures |r| == |FarmOrder(s)| && forall i :: 0 <= i < |r| ==> r[i].FarmGrew?
  {
    var ks := FarmOrder(s);
    seq(|ks|, i requires 0 <= i < |ks| => WE.FarmGrew(s.farms[ks[i]].key))
  }

  /** One harvest per villager, each villager once. */
  function Harvests(s: Snapshot): (r: seq<WE.WorldEvent>)
    ensures |r| == |VillagerOrder(s)| && forall i :: 0 <= i < |r| ==> r[i].VillagerHarvested?
    ensures forall i, j :: 0 <= i < j < |r| ==> r[i] != r[j]
  {
    var ks := VillagerOrder(s);
    seq(|ks|, i requires 0 <= i < |ks| => WE.VillagerHarvested(ks[i]))
  }

  /** One move per villager (MovesDirections: the i-th in the direction of the i-th draw
      from now). */
  function Moves(rng: Rng, s: Snapshot): (r: seq<WE.WorldEvent>)
  {
    var ks := VillagerOrder(s);
    seq(|ks|, i requires 0 <= i < |ks| => WE.VillagerMoved(ks[i], rng.DirectionAt(s.drawn + i)))
  }

  /** When every farm key was issued and every farm record names its own key, the growths
      list every farm and nothing else. */
  lemma GrowthsCover(s: Snapshot)
    requires forall k :: k in s.farms ==> k < s.nextKey && s.farms[k].key == k
    ensures forall k :: k in s.farms <==> WE.FarmGrew(k) in Growths(s)
  {
    var fs := FarmOrder(s);
    KeysBelowExactly(s.farms.Keys, s.nextKey);
    forall k | k in s.farms
      ensures WE.FarmGrew(k) in Growths(s)
    {
      var i :| 0 <= i < |fs| && fs[i] == k;
      assert Growths(s)[i] == WE.FarmGrew(k);
    }
  }

  /** When every villager key was issued, the harvests and the moves list every villager,
      each once, and nothing else. */
  lemma VillagersCover(rng: Rng, s: Snapshot)
    requires forall k :: k in s.villagers ==> k < s.nextKey
    ensures forall k :: k in s.villagers <==> WE.VillagerHarvested(k) in Harvests(s)
    ensures forall k :: k in s.villagers <==> k in MovedKeys(Moves(rng, s))
    ensures forall i, j :: 0 <= i < j < |Moves(rng, s)| ==> Moves(rng, s)[i].key != Moves(rng, s)[j].key
  {
    var vs := VillagerOrder(s);
    var ms := Moves(rng, s);
    KeysBelowExactly(s.villagers.Keys, s.nextKey);
    forall k | k in s.villagers
      ensures WE.VillagerHarvested(k) in Harvests(s) && k in MovedKeys(ms)
    {
      var i :| 0 <= i < |vs| && vs[i] == k;
      assert Harvests(s)[i] == WE.VillagerHarvested(k);
      assert ms[i].key == k;
    }
    forall k | k in MovedKeys(ms)
      ensures k in s.villagers
    {
      var i :| 0 <= i < |ms| && ms[i].key == k;
      assert vs[i] in s.villagers;
    }
    forall i, j | 0 <= i < j < |ms|
      ensures ms[i].key != ms[j].key
    {
      assert vs[i] < vs[j];
    }
  }

  /** The i-th move goes in the direction the i-th draw from now picks from the four
      directions, in the order they are listed. */
  lemma MovesDirections(rng: Rng, s: Snapshot)
    ensures forall i :: 0 <= i < |Moves(rng, s)| ==>
      Moves(rng, s)[i].dir == CARDINAL_DIRECTIONS[rng.Index(s.drawn + i, 4)]
  {
    var ks := VillagerOrder(s);
    forall i | 0 <= i < |Moves(rng, s)|
      ensures Moves(rng, s)[i].dir == CARDINAL_DIRECTIONS[rng.Index(s.drawn + i, 4)]
    {
      assert Moves(rng, s)[i] == WE.VillagerMoved(ks[i], rng.DirectionAt(s.drawn + i));
    }
  }

  /** The villagers the moves `ms` are for. */
  ghost function MovedKeys(ms: seq<WE.WorldEvent>): set<Key>
    requires forall i :: 0 <= i < |ms| ==> ms[i].VillagerMoved?
  {
    set i | 0 <= i < |ms| :: ms[i].key
  }

  /** farm_grew on values. It panics on a farm or a position it lacks, on a farm that grew in
      the future, and (more eagerly than the source, which skips the lookups once no
      candidate is left) on any farm without a position. */
  ghost function GrowFarm(key: Key, rng: Rng, ticks: nat, s: Snapshot)
    : (r: Option<(Snapshot, seq<WE.WorldEvent>)>)
    ensures r.Some? ==>
      && r.value.0.(farms := s.farms, drawn := s.drawn) == s
      && (r.value.0.farms == s.farms ||
          (key in s.farms && r.value.0.farms == s.farms[key := s.farms[key].(lastGrew := ticks)]))
      && r.value.0.farms.Keys == s.farms.Keys
      && |r.value.1| <= 1 && r.value.0.drawn == s.drawn + |r.value.1|
    ensures r.Some? && r.value.1 != [] ==>
      && key in s.coords && r.value.1[0].FarmAdded?
      && Adjacent(s.coords[key], r.value.1[0].coords)
      && r.value.1[0].coords !in CellsOf(s.farms.Keys, s.coords)
  {
    if key !in s.farms || s.farms[key].lastGrew > ticks then None
    else if ticks - s.farms[key].lastGrew < GROWTH_COOLDOWN then Some((s, []))
    else if key !in s.coords || !(s.farms.Keys <= s.coords.Keys) then None
    else
      var grown := s.(farms := s.farms[key := s.farms[key].(lastGrew := ticks)]);
      var free := FreeCells(s.coords[key], CellsOf(s.farms.Keys, s.coords));
      if free == [] then Some((grown, []))
      else Some((grown.(drawn := s.drawn + 1), [WE.FarmAdded(free[rng.Index(s.drawn, |free|)])]))
  }

  /** The outcome farm_grew's handler states, in a valid world, is the one GrowFarm
      defines: only the farm's growth tick and the draw count change. */
  lemma GrowFarmIs(key: Key, rng: Rng, ticks: nat, s: Snapshot, s': Snapshot,
                   out: seq<WE.WorldEvent>)
    requires WorldOk(s.nextKey, s.coords, s.lastId, s.deathMarkers, s.farms, ticks,
                     s.satiation, s.villagers)
    requires key in s.farms && s'.(farms := s.farms, drawn := s.drawn) == s
    requires ticks - s.farms[key].lastGrew < GROWTH_COOLDOWN ==>
               s'.farms == s.farms && out == [] && s'.drawn == s.drawn
    requires ticks - s.farms[key].lastGrew >= GROWTH_COOLDOWN ==>
               && s'.farms == s.farms[key := s.farms[key].(lastGrew := ticks)]
               && (var free := FreeCells(s.coords[key], CellsOf(s.farms.Keys, s.coords));
                   && (free == [] ==> out == [] && s'.drawn == s.drawn)
                   && (free != [] ==>
                         out == [WE.FarmAdded(free[rng.Index(s.drawn, |free|)])] &&
                         s'.drawn == s.drawn + 1))
    ensures GrowFarm(key, rng, ticks, s) == Some((s', out))
  {
  }

  /** villager_harvested on values: a villager in need eats from the farm the next draw
      picks among the farms in iteration order, or goes hungry when there is none. */
  ghost function Harvest(vk: Key, rng: Rng, ticks: nat, s: Snapshot)
    : (r: Option<(Snapshot, seq<WE.WorldEvent>)>)
    ensures r.Some? ==> r.value.0.(drawn := s.drawn) == s
    ensures r.Some? ==> r.value.0.drawn == s.drawn + (if |r.value.1| == 2 then 1 else 0)
    ensures r.Some? && r.value.1 != [] ==> vk in s.satiation && s.satiation[vk] < MAX_SATIATION
  {
    if vk !in s.villagers || vk !in s.satiation || s.villagers[vk].lastAte > ticks then None
    else
      var ks := FarmOrder(s);
      var needToEat := s.satiation[vk] < MAX_SATIATION &&
                       ticks - s.villagers[vk].lastAte < HUNGER_WINDOW;
      if !needToEat then Some((s, []))
      else if ks == [] then Some((s, [WE.VillagerHungered(vk)]))
      else Some((s.(drawn := s.drawn + 1),
                 [WE.FarmHarvested(s.farms[ks[rng.Index(s.drawn, |ks|)]].key), WE.VillagerAte(vk)]))
  }

  /** The outcome villager_harvested's handler states, in a valid world, is the one Harvest
      defines. */
  lemma HarvestIs(vk: Key, rng: Rng, ticks: nat, s: Snapshot, s': Snapshot,
                  out: seq<WE.WorldEvent>)
    requires vk in s.villagers && vk in s.satiation && s.villagers[vk].lastAte <= ticks
    requires var need := s.satiation[vk] < MAX_SATIATION &&
                         ticks - s.villagers[vk].lastAte < HUNGER_WINDOW;
      var ks := FarmOrder(s);
      && (!need ==> s' == s && out == [])
      && (need && ks == [] ==> s' == s && out == [WE.VillagerHungered(vk)])
      && (need && ks != [] ==>
            s' == s.(drawn := s.drawn + 1) &&
            out == [WE.FarmHarvested(s.farms[ks[rng.Index(s.drawn, |ks|)]].key),
                    WE.VillagerAte(vk)])
    ensures Harvest(vk, rng, ticks, s) == Some((s', out))
  {
  }

  /** What the handler of `evt` does at tick `ticks` to the fields `s`, drawing from `rng`:
      the new fields and the follow-up events in push order, or None where it panics (a
      secondary map indexed with a key it lacks, a u8 overflow, a tick difference below
      zero). */
  ghost function Handle(evt: WE.WorldEvent, rng: Rng, ticks: nat, s: Snapshot)
    : Option<(Snapshot, seq<WE.WorldEvent>)>
  {
    match evt
    case VillagerMoved(key, dir) =>
      if key !in s.coords then None
      else Some((s.(coords := s.coords[key := CoordsAfterMove(s.coords[key], dir)]), []))
    case VillagerAte(key) =>
      if key !in s.satiation || s.satiation[key] == 255 || key !in s.villagers then None
      else Some((s.(satiation := s.satiation[key := s.satiation[key] + 1],
                    villagers := s.villagers[key := s.villagers[key].(lastAte := ticks)]), []))
    case VillagerHungered(key) =>
      if key !in s.satiation then None
      else if s.satiation[key] == 0 then Some((s, [WE.VillagerDied(key)]))
      else if key !in s.villagers then None
      else Some((s.(satiation := s.satiation[key := s.satiation[key] - 1],
                    villagers := s.villagers[key := s.villagers[key].(lastAte := ticks)]), []))
    case FarmGrew(key) => GrowFarm(key, rng, ticks, s)
    case FarmHarvested(key) => Some((s.(farms := s.farms - {key}), []))
    case VillagerDied(vk) =>
      if vk !in s.coords then None
      else Some((s.(nextKey := s.nextKey + 1,
                    deathMarkers := s.deathMarkers[s.nextKey := DeathMarker(s.nextKey)],
                    coords := s.coords[s.nextKey := s.coords[vk]],
                    villagers := s.villagers - {vk}), []))
    case FarmAdded(c) =>
      Some((s.(nextKey := s.nextKey + 1, lastId := s.lastId + 1,
               farms := s.farms[s.nextKey := Farm(s.lastId + 1, s.nextKey, ticks)],
               coords := s.coords[s.nextKey := c]), []))
    case VillagerHarvested(vk) => Harvest(vk, rng, ticks, s)
    case GravesCleared => Some((s.(deathMarkers := map[]), []))
    case FarmsCultivated => Some((s, Growths(s)))
    case VillagersFarmed => Some((s, Harvests(s)))
    case VillagersMoved => Some((s.(drawn := s.drawn + |VillagerOrder(s)|), Moves(rng, s)))
  }

  /** What a handler may touch: the batch events, GravesCleared, a farm's harvest and a new
      farm never panic; only a growth, a harvest and the villagers' moves draw; only a death
      and a new farm take a key from the arena; only a new farm takes an id. */
  lemma HandleFootprint(evt: WE.WorldEvent, rng: Rng, ticks: nat, s: Snapshot)
    ensures Handle(evt, rng, ticks, s).None? ==>
              !WE.IsBatch(evt) && !evt.GravesCleared? && !evt.FarmHarvested? && !evt.FarmAdded?
    ensures Handle(evt, rng, ticks, s).Some? ==>
              var s' := Handle(evt, rng, ticks, s).value.0;
              && s'.drawn >= s.drawn
              && (s'.drawn != s.drawn ==>
                    evt.FarmGrew? || evt.VillagerHarvested? || evt.VillagersMoved?)
              && s'.nextKey == s.nextKey + (if evt.VillagerDied? || evt.FarmAdded? then 1 else 0)
              && s'.lastId == s.lastId + (if evt.FarmAdded? then 1 else 0)
  {
  }

  /** Every handler's follow-ups hold no batch event and, for a fine-grained event, weigh
      less than the event: the ranking on stacks goes down with every handled event. */
  lemma HandleLowersRank(evt: WE.WorldEvent, rng: Rng, ticks: nat, s: Snapshot)
    requires Handle(evt, rng, ticks, s).Some?
    ensures WE.Lowers(evt, Handle(evt, rng, ticks, s).value.1)
  {
    match evt
    case VillagerMoved(key, dir) =>
      HandleMovedIs(key, dir, rng, ticks, s);
      WE.LowersByNothing(evt);
    case VillagerAte(key) =>
      HandleAteIs(key, rng, ticks, s);
      WE.LowersByNothing(evt);
    case VillagerHungered(key) => HungeredLowers(key, rng, ticks, s);
    case FarmGrew(key) =>
      HandleDelegates(key, rng, ticks, s);
      GrewLowers(key, rng, ticks, s);
    case FarmHarvested(key) =>
      HandleFarmHarvestedIs(key, rng, ticks, s);
      WE.LowersByNothing(evt);
    case VillagerDied(vk) =>
      HandleDiedIs(vk, rng, ticks, s);
      WE.LowersByNothing(evt);
    case FarmAdded(c) =>
      HandleAddedIs(c, rng, ticks, s);
      WE.LowersByNothing(evt);
    case VillagerHarvested(vk) =>
      HandleDelegates(vk, rng, ticks, s);
      HarvestLowers(vk, rng, ticks, s);
    case GravesCleared =>
      HandleBatchIs(rng, ticks, s);
      WE.LowersByNothing(evt);
    case FarmsCultivated =>
      HandleBatchIs(rng, ticks, s);
      WE.LowersByFanOut(evt, Growths(s));
    case VillagersFarmed =>
      HandleBatchIs(rng, ticks, s);
      WE.LowersByFanOut(evt, Harvests(s));
    case VillagersMoved =>
      HandleBatchIs(rng, ticks, s);
      WE.LowersByFanOut(evt, Moves(rng, s));
  }

  lemma HungeredLowers(key: Key, rng: Rng, ticks: nat, s: Snapshot)
    requires Handle(WE.VillagerHungered(key), rng, ticks, s).Some?
    ensures WE.Lowers(WE.VillagerHungered(key), Handle(WE.VillagerHungered(key), rng, ticks, s).value.1)
  {
    HandleHungeredIs(key, rng, ticks, s);
    if s.satiation[key] == 0 {
      WE.LowersByOne(WE.VillagerHungered(key), WE.VillagerDied(key));
    } else {
      WE.LowersByNothing(WE.VillagerHungered(key));
    }
  }

  lemma GrewLowers(key: Key, rng: Rng, ticks: nat, s: Snapshot)
    requires GrowFarm(key, rng, ticks, s).Some?
    ensures WE.Lowers(WE.FarmGrew(key), GrowFarm(key, rng, ticks, s).value.1)
  {
    GrowFarmShape(key, rng, ticks, s);
    var out := GrowFarm(key, rng, ticks, s).value.1;
    if out == [] {
      WE.LowersByNothing(WE.FarmGrew(key));
    } else {
      assert out == [out[0]];
      WE.LowersByOne(WE.FarmGrew(key), out[0]);
    }
  }

  lemma HarvestLowers(vk: Key, rng: Rng, ticks: nat, s: Snapshot)
    requires Harvest(vk, rng, ticks, s).Some?
    ensures WE.Lowers(WE.VillagerHarvested(vk), Harvest(vk, rng, ticks, s).value.1)
  {
    HarvestShape(vk, rng, ticks, s);
    var out := Harvest(vk, rng, ticks, s).value.1;
    if out == [] {
      WE.LowersByNothing(WE.VillagerHarvested(vk));
    } else if |out| == 2 {
      assert out == [out[0], out[1]];
      WE.LowersByTwo(WE.VillagerHarvested(vk), out[0], out[1]);
    } else {
      WE.LowersByOne(WE.VillagerHarvested(vk), WE.VillagerHungered(vk));
    }
  }

  /** A growth asks for at most one new farm. */
  lemma GrowFarmShape(key: Key, rng: Rng, ticks: nat, s: Snapshot)
    requires GrowFarm(key, rng, ticks, s).Some?
    ensures var out := GrowFarm(key, rng, ticks, s).value.1;
      out == [] || (|out| == 1 && out[0].FarmAdded?)
  {
  }

  /** A harvest leaves nothing, a hunger check, or a farm's harvest under the villager's
      meal. */
  lemma HarvestShape(vk: Key, rng: Rng, ticks: nat, s: Snapshot)
    requires Harvest(vk, rng, ticks, s).Some?
    ensures var out := Harvest(vk, rng, ticks, s).value.1;
      || out == [] || out == [WE.VillagerHungered(vk)]
      || (|out| == 2 && out[0].FarmHarvested? && out[1] == WE.VillagerAte(vk))
  {
  }

  /** The outcome `r` of a run with the events `t` run before it. */
  function Prefixed(t: seq<WE.WorldEvent>, r: Option<(Snapshot, seq<WE.WorldEvent>)>)
    : Option<(Snapshot, seq<WE.WorldEvent>)>
  {
    match r
    case None => None
    case Some((s, u)) => Some((s, t + u))
  }

  lemma PrefixedNothing(r: Option<(Snapshot, seq<WE.WorldEvent>)>)
    ensures Prefixed([], r) == r
  {
    if r.Some? {
      assert [] + r.value.1 == r.value.1;
    }
  }

  lemma PrefixedTwice(t: seq<WE.WorldEvent>, u: seq<WE.WorldEvent>,
                      r: Option<(Snapshot, seq<WE.WorldEvent>)>)
    ensures Prefixed(t, Prefixed(u, r)) == Prefixed(t + u, r)
  {
    if r.Some? {
      assert t + (u + r.value.1) == (t + u) + r.value.1;
    }
  }

  /** process_events on values: pops the top of `stack`, handles it and pushes its
      follow-ups until the stack is empty. The result is the final fields and the events in
      the order they ran, or None when some handler panics. */
  ghost function Cascade(rng: Rng, ticks: nat, s: Snapshot, stack: seq<WE.WorldEvent>)
    : Option<(Snapshot, seq<WE.WorldEvent>)>
    decreases WE.BatchCount(stack), WE.FineWeight(stack)
  {
    if stack == [] then Some((s, []))
    else
      var evt, rest := stack[|stack| - 1], stack[..|stack| - 1];
      match Handle(evt, rng, ticks, s)
      case None => None
      case Some((s', out)) =>
        HandleLowersRank(evt, rng, ticks, s);
        assert stack == rest + [evt];
        WE.StepLowersRank(rest, evt, out);
        Prefixed([evt], Cascade(rng, ticks, s', rest + out))
  }

  /** The moves of the villagers in iteration order, each in the direction of the next
      draw, are the fan-out `Moves` defines. */
  lemma MovesAre(rng: Rng, s: Snapshot, ms: seq<WE.WorldEvent>)
    requires |ms| == |VillagerOrder(s)|
    requires forall i :: 0 <= i < |ms| ==>
      ms[i] == WE.VillagerMoved(VillagerOrder(s)[i], rng.DirectionAt(s.drawn + i))
    ensures ms == Moves(rng, s)
  {
  }

  // What Handle gives for each kind of event, stated on its own so that a proof about one
  // handler need not unfold the others.

  lemma HandleMovedIs(key: Key, dir: Direction, rng: Rng, ticks: nat, s: Snapshot)
    ensures Handle(WE.VillagerMoved(key, dir), rng, ticks, s) ==
            if key !in s.coords then None
            else Some((s.(coords := s.coords[key := CoordsAfterMove(s.coords[key], dir)]), []))
  {
  }

  lemma HandleAteIs(key: Key, rng: Rng, ticks: nat, s: Snapshot)
    ensures Handle(WE.VillagerAte(key), rng, ticks, s) ==
            if key !in s.satiation || s.satiation[key] == 255 || key !in s.villagers then None
            else Some((s.(satiation := s.satiation[key := s.satiation[key] + 1],
                          villagers := s.villagers[key := s.villagers[key].(lastAte := ticks)]), []))
  {
  }

  lemma HandleHungeredIs(key: Key, rng: Rng, ticks: nat, s: Snapshot)
    ensures Handle(WE.VillagerHungered(key), rng, ticks, s) ==
            if key !in s.satiation then None
            else if s.satiation[key] == 0 then Some((s, [WE.VillagerDied(key)]))
            else if key !in s.villagers then None
            else Some((s.(satiation := s.satiation[key := s.satiation[key] - 1],
                          villagers := s.villagers[key := s.villagers[key].(lastAte := ticks)]), []))
  {
  }

  lemma HandleDelegates(key: Key, rng: Rng, ticks: nat, s: Snapshot)
    ensures Handle(WE.FarmGrew(key), rng, ticks, s) == GrowFarm(key, rng, ticks, s)
    ensures Handle(WE.VillagerHarvested(key), rng, ticks, s) == Harvest(key, rng, ticks, s)
  {
  }

  lemma HandleFarmHarvestedIs(key: Key, rng: Rng, ticks: nat, s: Snapshot)
    ensures Handle(WE.FarmHarvested(key), rng, ticks, s) == Some((s.(farms := s.farms - {key}), []))
  {
  }

  lemma HandleDiedIs(vk: Key, rng: Rng, ticks: nat, s: Snapshot)
    ensures Handle(WE.VillagerDied(vk), rng, ticks, s) ==
            if vk !in s.coords then None
            else Some((s.(nextKey := s.nextKey + 1,
                          deathMarkers := s.deathMarkers[s.nextKey := DeathMarker(s.nextKey)],
                          coords := s.coords[s.nextKey := s.coords[vk]],
                          villagers := s.villagers - {vk}), []))
  {
  }

  lemma HandleAddedIs(c: Coords, rng: Rng, ticks: nat, s: Snapshot)
    ensures Handle(WE.FarmAdded(c), rng, ticks, s) ==
            Some((s.(nextKey := s.nextKey + 1, lastId := s.lastId + 1,
                     farms := s.farms[s.nextKey := Farm(s.lastId + 1, s.nextKey, ticks)],
                     coords := s.coords[s.nextKey := c]), []))
  {
  }

  lemma HandleBatchIs(rng: Rng, ticks: nat, s: Snapshot)
    ensures Handle(WE.GravesCleared, rng, ticks, s) == Some((s.(deathMarkers := map[]), []))
    ensures Handle(WE.FarmsCultivated, rng, ticks, s) == Some((s, Growths(s)))
    ensures Handle(WE.VillagersFarmed, rng, ticks, s) == Some((s, Harvests(s)))
    ensures Handle(WE.VillagersMoved, rng, ticks, s) ==
            Some((s.(drawn := s.drawn + |VillagerOrder(s)|), Moves(rng, s)))
  {
  }

  /** A drain that does not panic runs every event of the stack, the top one first, and
      neither gives back draws nor keys. */
  lemma {:induction false} CascadeRuns(rng: Rng, ticks: nat, s: Snapshot, stack: seq<WE.WorldEvent>)
    ensures var r := Cascade(rng, ticks, s, stack);
      r.Some? ==>
        && |r.value.1| >= |stack| && multiset(stack) <= multiset(r.value.1)
        && (stack != [] ==> r.value.1[0] == stack[|stack| - 1])
        && r.value.0.drawn >= s.drawn && r.value.0.nextKey >= s.nextKey
    decreases WE.BatchCount(stack), WE.FineWeight(stack)
  {
    if stack != [] {
      var evt, rest := stack[|stack| - 1], stack[..|stack| - 1];
      var h := Handle(evt, rng, ticks, s);
      if h.Some? {
        var (s', out) := h.value;
        HandleFootprint(evt, rng, ticks, s);
        HandleLowersRank(evt, rng, ticks, s);
        assert stack == rest + [evt];
        WE.StepLowersRank(rest, evt, out);
        CascadeStep(rng, ticks, s, stack, s', out);
        CascadeRuns(rng, ticks, s', rest + out);
        assert multiset(stack) == multiset(rest) + multiset{evt};
        assert multiset(rest) <= multiset(rest + out);
      }
    }
  }

  /** One pop of a cascade: a stack whose top is handled is drained by draining what the
      handler leaves, after that top event. */
  lemma CascadeStep(rng: Rng, ticks: nat, s: Snapshot, stack: seq<WE.WorldEvent>,
                    s': Snapshot, out: seq<WE.WorldEvent>)
    requires stack != [] && Handle(stack[|stack| - 1], rng, ticks, s) == Some((s', out))
    ensures Cascade(rng, ticks, s, stack) ==
            Prefixed([stack[|stack| - 1]], Cascade(rng, ticks, s', stack[..|stack| - 1] + out))
  {
  }

  // Handling the top event of a stack in any stage of a cascade: the handler does not
  // panic, the world's invariant holds after it, and the stack moves to the next stage.

  /** The world's invariant, WorldOk, on a snapshot of the fields at tick `ticks`. */
  ghost predicate SnapOk(ticks: nat, s: Snapshot) {
    WorldOk(s.nextKey, s.coords, s.lastId, s.deathMarkers, s.farms, ticks, s.satiation, s.villagers)
  }

  /** The stage's needs, StageFits, on a snapshot. */
  ghost predicate Fits(st: Stage, s: Snapshot) {
    StageFits(st, s.farms, s.villagers, s.satiation, s.coords)
  }

  /** Handling the top event of `st` turned the fields `s` into `s'` and pushed `out`: the
      invariant holds, the stack is the next stage's and fits the new fields, the rank of
      the stack went down, and farms that stood apart and positions in the interior stay
      so. */
  ghost predicate Advances(st: Stage, out: seq<WE.WorldEvent>, ticks: nat, s: Snapshot,
                           s': Snapshot)
    requires st != Moving([]) && Shaped(st)
  {
    var st' := NextStage(st, out);
    && SnapOk(ticks, s') && Shaped(st') && Fits(st', s') && Follows(st, st')
    && Render(Popped(st)) + out == Render(st')
    && WE.BatchCount(out) == 0
    && (WE.IsBatch(Top(st)) || WE.FineWeight(out) < WE.Weight(Top(st)))
    && (Apart(s.farms, s.coords) ==> Apart(s'.farms, s'.coords))
    && (AllInterior(s.coords) ==> AllInterior(s'.coords))
  }

  /** An event that pushes nothing, keeps the invariant and leaves fields that fit the
      popped stage advances the cascade by popping. */
  lemma PoppedAdvances(st: Stage, ticks: nat, s: Snapshot, s': Snapshot)
    requires st != Moving([]) && Shaped(st) && NextStage(st, []) == Popped(st)
    requires !WE.IsBatch(Top(st))
    requires SnapOk(ticks, s') && Fits(Popped(st), s')
    requires Apart(s.farms, s.coords) ==> Apart(s'.farms, s'.coords)
    requires AllInterior(s.coords) ==> AllInterior(s'.coords)
    ensures Advances(st, [], ticks, s, s')
  {
    PoppedFollows(st);
    assert Render(Popped(st)) + [] == Render(Popped(st));
  }

  /** GravesCleared, on top of the seeded stack, empties the graves. */
  lemma ClearedAdvances(rng: Rng, ticks: nat, s: Snapshot)
    requires SnapOk(ticks, s)
    ensures Handle(WE.GravesCleared, rng, ticks, s) == Some((s.(deathMarkers := map[]), []))
    ensures Advances(Seeded, [], ticks, s, s.(deathMarkers := map[]))
  {
    HandleBatchIs(rng, ticks, s);
    PoppedAdvances(Seeded, ticks, s, s.(deathMarkers := map[]));
  }

  /** FarmsCultivated puts one growth per farm on the stack. */
  lemma CultivatedAdvances(rng: Rng, ticks: nat, s: Snapshot)
    requires SnapOk(ticks, s)
    ensures Handle(WE.FarmsCultivated, rng, ticks, s) == Some((s, Growths(s)))
    ensures Advances(Cleared, Growths(s), ticks, s, s)
  {
    HandleBatchIs(rng, ticks, s);
    var gs := Growths(s);
    assert Shaped(Growing(gs, None)) && Fits(Growing(gs, None), s);
    FanOutStep(Cleared, gs, Growing(gs, None));
  }

  /** VillagersFarmed puts one harvest per villager on the stack, each villager once. */
  lemma FarmedAdvances(rng: Rng, ticks: nat, s: Snapshot)
    requires SnapOk(ticks, s)
    ensures Handle(WE.VillagersFarmed, rng, ticks, s) == Some((s, Harvests(s)))
    ensures Advances(Growing([], None), Harvests(s), ticks, s, s)
  {
    HandleBatchIs(rng, ticks, s);
    var hs := Harvests(s);
    var ks := VillagerOrder(s);
    forall i, j | 0 <= i < j < |hs|
      ensures hs[i] != hs[j]
    {
      assert ks[i] < ks[j];
    }
    assert Shaped(Harvesting(hs, Nothing)) && Fits(Harvesting(hs, Nothing), s);
    FanOutStep(Growing([], None), hs, Harvesting(hs, Nothing));
  }

  /** VillagersMoved puts one move per villager on the stack, using one draw each. */
  lemma MovesAdvances(rng: Rng, ticks: nat, s: Snapshot)
    requires SnapOk(ticks, s)
    ensures Handle(WE.VillagersMoved, rng, ticks, s) ==
            Some((s.(drawn := s.drawn + |VillagerOrder(s)|), Moves(rng, s)))
    ensures Advances(Harvesting([], Nothing), Moves(rng, s), ticks, s,
                     s.(drawn := s.drawn + |VillagerOrder(s)|))
  {
    HandleBatchIs(rng, ticks, s);
    var ms := Moves(rng, s);
    assert Shaped(Moving(ms)) && Fits(Moving(ms), s.(drawn := s.drawn + |VillagerOrder(s)|));
    FanOutStep(Harvesting([], Nothing), ms, Moving(ms));
  }

  /** A growth that keeps the farms' keys and every position, and whose follow-up, if any,
      is a FarmAdded for a cell no farm is on, advances the cascade. */
  lemma GrowthAdvances(st: Stage, out: seq<WE.WorldEvent>, ticks: nat, s: Snapshot, s': Snapshot)
    requires SnapOk(ticks, s) && Shaped(st) && Fits(st, s)
    requires st.Growing? && st.added.None? && st.growths != []
    requires SnapOk(ticks, s') && s'.coords == s.coords && s'.farms.Keys == s.farms.Keys
    requires || out == []
             || (&& |out| == 1 && out[0].FarmAdded?
                 && out[0].coords !in CellsOf(s.farms.Keys, s.coords)
                 && (AllInterior(s.coords) ==> Interior(out[0].coords)))
    ensures Advances(st, out, ticks, s, s')
  {
    var g := st.growths;
    var rest := g[..|g| - 1];
    assert CellsOf(s'.farms.Keys, s'.coords) == CellsOf(s.farms.Keys, s.coords);
    assert Fits(Growing(rest, None), s');
    GrowthStep(st, out, NextStage(st, out));
  }

  /** In a valid world, growing one of its farms does not panic, keeps the invariant, the
      farms' keys and every position, and asks at most for a farm on a cell no farm is on,
      next to the growing one. */
  lemma GrowFarmOk(key: Key, rng: Rng, ticks: nat, s: Snapshot)
    requires SnapOk(ticks, s) && key in s.farms
    ensures GrowFarm(key, rng, ticks, s).Some?
    ensures var (s', out) := GrowFarm(key, rng, ticks, s).value;
      && SnapOk(ticks, s') && s'.coords == s.coords && s'.farms.Keys == s.farms.Keys
      && (|| out == []
          || (&& |out| == 1 && out[0].FarmAdded?
              && out[0].coords !in CellsOf(s.farms.Keys, s.coords)
              && (AllInterior(s.coords) ==> Interior(out[0].coords))))
  {
    if ticks - s.farms[key].lastGrew >= GROWTH_COOLDOWN {
      var grown := s.(farms := s.farms[key := s.farms[key].(lastGrew := ticks)]);
      assert grown.farms.Keys == s.farms.Keys;
      assert SnapOk(ticks, grown);
      var free := FreeCells(s.coords[key], CellsOf(s.farms.Keys, s.coords));
      if free != [] {
        assert free[rng.Index(s.drawn, |free|)] in free;
      }
    }
  }

  /** A growth's outcome, GrowFarm, advances the cascade. */
  lemma GrewAdvances(st: Stage, rng: Rng, ticks: nat, s: Snapshot)
    requires SnapOk(ticks, s) && Shaped(st) && Fits(st, s)
    requires st.Growing? && st.added.None? && st.growths != []
    ensures GrowFarm(Top(st).key, rng, ticks, s).Some?
    ensures Advances(st, GrowFarm(Top(st).key, rng, ticks, s).value.1, ticks, s,
                     GrowFarm(Top(st).key, rng, ticks, s).value.0)
  {
    var g := st.growths;
    var key := g[|g| - 1].key;
    assert key in s.farms;
    GrowFarmOk(key, rng, ticks, s);
    var (s', out) := GrowFarm(key, rng, ticks, s).value;
    GrowthAdvances(st, out, ticks, s, s');
  }

  /** A FarmAdded places a farm under a fresh key on a cell no farm is on. */
  lemma AddedAdvances(st: Stage, rng: Rng, ticks: nat, s: Snapshot)
    requires SnapOk(ticks, s) && Shaped(st) && Fits(st, s)
    requires st.Growing? && st.added.Some?
    ensures var c := st.added.value;
      var s' := s.(nextKey := s.nextKey + 1, lastId := s.lastId + 1,
                   farms := s.farms[s.nextKey := Farm(s.lastId + 1, s.nextKey, ticks)],
                   coords := s.coords[s.nextKey := c]);
      Handle(WE.FarmAdded(c), rng, ticks, s) == Some((s', [])) && Advances(st, [], ticks, s, s')
  {
    var c := st.added.value;
    HandleAddedIs(c, rng, ticks, s);
    FarmInsertOk(s.nextKey, s.coords, s.lastId, s.deathMarkers, s.farms, ticks, s.satiation,
                 s.villagers, c);
    var s' := s.(nextKey := s.nextKey + 1, lastId := s.lastId + 1,
                 farms := s.farms[s.nextKey := Farm(s.lastId + 1, s.nextKey, ticks)],
                 coords := s.coords[s.nextKey := c]);
    if Apart(s.farms, s.coords) {
      forall k1, k2 | k1 in s'.farms && k2 in s'.farms && k1 != k2 && k1 in s'.coords && k2 in s'.coords
        ensures s'.coords[k1] != s'.coords[k2]
      {
        if k1 == s.nextKey {
          assert s.coords[k2] in CellsOf(s.farms.Keys, s.coords);
        } else if k2 == s.nextKey {
          assert s.coords[k1] in CellsOf(s.farms.Keys, s.coords);
        }
      }
    }
    PoppedAdvances(st, ticks, s, s');
  }

  /** A harvest leaves a meal, a hunger check or nothing for its villager, who is not
      harvested again in this cascade. */
  lemma HarvestedAdvances(st: Stage, rng: Rng, ticks: nat, s: Snapshot)
    requires SnapOk(ticks, s) && Shaped(st) && Fits(st, s)
    requires st.Harvesting? && st.leftover.Nothing? && st.harvests != []
    ensures Harvest(Top(st).key, rng, ticks, s).Some?
    ensures Advances(st, Harvest(Top(st).key, rng, ticks, s).value.1, ticks, s,
                     Harvest(Top(st).key, rng, ticks, s).value.0)
  {
    var h := st.harvests;
    var vk := h[|h| - 1].key;
    var rest := h[..|h| - 1];
    DistinctInit(h);
    var (s', out) := Harvest(vk, rng, ticks, s).value;
    assert SnapOk(ticks, s') && Fits(Harvesting(rest, Nothing), s');
    var st' := NextStage(st, out);
    assert Fits(st', s');
    HarvestStep(st, out, st');
  }

  /** A meal adds one to a satiation below 5. */
  lemma AteAdvances(st: Stage, rng: Rng, ticks: nat, s: Snapshot)
    requires SnapOk(ticks, s) && Shaped(st) && Fits(st, s)
    requires st.Harvesting? && st.leftover.Meal?
    ensures var v := st.leftover.villager;
      var s' := s.(satiation := s.satiation[v := s.satiation[v] + 1],
                   villagers := s.villagers[v := s.villagers[v].(lastAte := ticks)]);
      Handle(WE.VillagerAte(v), rng, ticks, s) == Some((s', [])) && Advances(st, [], ticks, s, s')
  {
    var v := st.leftover.villager;
    HandleAteIs(v, rng, ticks, s);
    var s' := s.(satiation := s.satiation[v := s.satiation[v] + 1],
                 villagers := s.villagers[v := s.villagers[v].(lastAte := ticks)]);
    assert s'.villagers.Keys == s.villagers.Keys;
    PoppedAdvances(st, ticks, s, s');
  }

  /** A harvested farm loses its record only. */
  lemma FarmHarvestedAdvances(st: Stage, rng: Rng, ticks: nat, s: Snapshot)
    requires SnapOk(ticks, s) && Shaped(st) && Fits(st, s)
    requires st.Harvesting? && st.leftover.ToHarvest?
    ensures var f := st.leftover.farm;
      Handle(WE.FarmHarvested(f), rng, ticks, s) == Some((s.(farms := s.farms - {f}), [])) &&
      Advances(st, [], ticks, s, s.(farms := s.farms - {f}))
  {
    var f := st.leftover.farm;
    HandleFarmHarvestedIs(f, rng, ticks, s);
    PoppedAdvances(st, ticks, s, s.(farms := s.farms - {f}));
  }

  /** A hunger check uses one unit of satiation or leaves a death. */
  lemma HungeredAdvances(st: Stage, rng: Rng, ticks: nat, s: Snapshot)
    requires SnapOk(ticks, s) && Shaped(st) && Fits(st, s)
    requires st.Harvesting? && st.leftover.Hunger?
    ensures Handle(WE.VillagerHungered(st.leftover.villager), rng, ticks, s).Some?
    ensures
      var r := Handle(WE.VillagerHungered(st.leftover.villager), rng, ticks, s).value;
      Advances(st, r.1, ticks, s, r.0)
  {
    var v := st.leftover.villager;
    HandleHungeredIs(v, rng, ticks, s);
    var (s', out) := Handle(WE.VillagerHungered(v), rng, ticks, s).value;
    assert s'.villagers.Keys == s.villagers.Keys;
    assert SnapOk(ticks, s') && Fits(NextStage(st, out), s');
    HungerStep(st, out, NextStage(st, out));
  }

  /** A death leaves a grave under a fresh key on the villager's cell and drops the villager,
      who has no harvest pending. */
  lemma DiedAdvances(st: Stage, rng: Rng, ticks: nat, s: Snapshot)
    requires SnapOk(ticks, s) && Shaped(st) && Fits(st, s)
    requires st.Harvesting? && st.leftover.Death?
    ensures var v := st.leftover.villager;
      var s' := s.(nextKey := s.nextKey + 1,
                   deathMarkers := s.deathMarkers[s.nextKey := DeathMarker(s.nextKey)],
                   coords := s.coords[s.nextKey := s.coords[v]],
                   villagers := s.villagers - {v});
      Handle(WE.VillagerDied(v), rng, ticks, s) == Some((s', [])) && Advances(st, [], ticks, s, s')
  {
    var v := st.leftover.villager;
    var h := st.harvests;
    HandleDiedIs(v, rng, ticks, s);
    var s' := s.(nextKey := s.nextKey + 1,
                 deathMarkers := s.deathMarkers[s.nextKey := DeathMarker(s.nextKey)],
                 coords := s.coords[s.nextKey := s.coords[v]],
                 villagers := s.villagers - {v});
    forall i | 0 <= i < |h|
      ensures h[i].key in s'.villagers
    {
      assert h[i] == WE.VillagerHarvested(h[i].key);
    }
    assert Fits(Harvesting(h, Nothing), s');
    assert SnapOk(ticks, s');
    PoppedAdvances(st, ticks, s, s');
  }

  /** A villager's move changes its own position only, and no farm's. */
  lemma MovedAdvances(st: Stage, rng: Rng, ticks: nat, s: Snapshot)
    requires SnapOk(ticks, s) && Shaped(st) && Fits(st, s)
    requires st.Moving? && st.moves != []
    ensures var e := Top(st);
      var s' := s.(coords := s.coords[e.key := CoordsAfterMove(s.coords[e.key], e.dir)]);
      Handle(e, rng, ticks, s) == Some((s', [])) && Advances(st, [], ticks, s, s')
  {
    var e := Top(st);
    HandleMovedIs(e.key, e.dir, rng, ticks, s);
    var s' := s.(coords := s.coords[e.key := CoordsAfterMove(s.coords[e.key], e.dir)]);
    assert SnapOk(ticks, s') && Fits(Popped(st), s');
    PoppedAdvances(st, ticks, s, s');
  }

  /** In every stage of a cascade, in a valid world, the top event's handler does not panic,
      keeps the invariant, and moves the stack to the next stage, lowering its rank. */
  lemma HandleAdvances(st: Stage, rng: Rng, ticks: nat, s: Snapshot)
    requires SnapOk(ticks, s) && st != Moving([]) && Shaped(st) && Fits(st, s)
    ensures Handle(Top(st), rng, ticks, s).Some?
    ensures Advances(st, Handle(Top(st), rng, ticks, s).value.1, ticks, s,
                     Handle(Top(st), rng, ticks, s).value.0)
  {
    match st
    case Seeded => ClearedAdvances(rng, ticks, s);
    case Cleared => CultivatedAdvances(rng, ticks, s);
    case Growing(g, a) =>
      if a.Some? {
        AddedAdvances(st, rng, ticks, s);
      } else if g != [] {
        HandleDelegates(Top(st).key, rng, ticks, s);
        GrewAdvances(st, rng, ticks, s);
      } else {
        FarmedAdvances(rng, ticks, s);
      }
    case Harvesting(h, l) =>
      match l {
        case Nothing =>
          if h != [] {
            HandleDelegates(Top(st).key, rng, ticks, s);
            HarvestedAdvances(st, rng, ticks, s);
          } else {
            MovesAdvances(rng, ticks, s);
          }
        case Meal(_, _) => AteAdvances(st, rng, ticks, s);
        case ToHarvest(_) => FarmHarvestedAdvances(st, rng, ticks, s);
        case Hunger(_) => HungeredAdvances(st, rng, ticks, s);
        case Death(_) => DiedAdvances(st, rng, ticks, s);
      }
    case Moving(_) => MovedAdvances(st, rng, ticks, s);
  }

  /** In every stage of a cascade, in a valid world, the top event's handler does not
      panic. */
  lemma HandleSafe(st: Stage, rng: Rng, ticks: nat, s: Snapshot)
    requires SnapOk(ticks, s) && st != Moving([]) && Shaped(st) && Fits(st, s)
    ensures Handle(Top(st), rng, ticks, s).Some?
  {
    HandleAdvances(st, rng, ticks, s);
  }

  /** One pop of a cascade in stage `st`, in a valid world, whose top event's handler turned
      `s` into `s'` and pushed `out`: the world stays valid, the stack is that of the next
      stage `st'`, which fits the new fields, and farms that stood apart and positions in
      the interior stay so. */
  lemma TopStep(st: Stage, st': Stage, rng: Rng, ticks: nat, s: Snapshot, s': Snapshot,
                out: seq<WE.WorldEvent>)
    requires SnapOk(ticks, s) && st != Moving([]) && Shaped(st) && Fits(st, s)
    requires Handle(Top(st), rng, ticks, s) == Some((s', out)) && st' == NextStage(st, out)
    ensures SnapOk(ticks, s') && Shaped(st') && Fits(st', s') && Follows(st, st')
    ensures Render(st') == Render(Popped(st)) + out
    ensures Apart(s.farms, s.coords) ==> Apart(s'.farms, s'.coords)
    ensures AllInterior(s.coords) ==> AllInterior(s'.coords)
  {
    HandleAdvances(st, rng, ticks, s);
  }

  /** The same pop, seen from the run: `Top(st)` joins the trace `trace` of the events run
      since the cascade started from `s0`, what is left to run is the rest of the cascade,
      and the stack's rank goes down. */
  lemma RunStep(st: Stage, st': Stage, rng: Rng, ticks: nat, s0: Snapshot, s: Snapshot,
                s': Snapshot, out: seq<WE.WorldEvent>, trace: seq<WE.WorldEvent>)
    requires SnapOk(ticks, s) && st != Moving([]) && Shaped(st) && Fits(st, s)
    requires TraceOk(st, trace)
    requires Cascade(rng, ticks, s0, SEEDED) == Prefixed(trace, Cascade(rng, ticks, s, Render(st)))
    requires Handle(Top(st), rng, ticks, s) == Some((s', out)) && st' == NextStage(st, out)
    ensures TraceOk(st', trace + [Top(st)])
    ensures Cascade(rng, ticks, s0, SEEDED) ==
            Prefixed(trace + [Top(st)], Cascade(rng, ticks, s', Render(st')))
    ensures WE.BatchCount(Render(st')) < WE.BatchCount(Render(st)) ||
            (WE.BatchCount(Render(st')) == WE.BatchCount(Render(st)) &&
             WE.FineWeight(Render(st')) < WE.FineWeight(Render(st)))
  {
    RenderSplit(st);
    HandleAdvances(st, rng, ticks, s);
    TraceStep(st, st', trace);
    WE.StepLowersRank(Render(Popped(st)), Top(st), out);
    CascadeStep(rng, ticks, s, Render(st), s', out);
    PrefixedTwice(trace, [Top(st)], Cascade(rng, ticks, s', Render(st')));
  }

  /** The cascade from any stage, in a valid world, runs to the end without a panic, and
      leaves a valid world in which farms that stood apart and positions in the interior
      stay so. */
  lemma {:induction false} CascadeCompletes(rng: Rng, ticks: nat, s: Snapshot, st: Stage)
    requires SnapOk(ticks, s) && Shaped(st) && Fits(st, s)
    ensures Cascade(rng, ticks, s, Render(st)).Some?
    ensures SnapOk(ticks, Cascade(rng, ticks, s, Render(st)).value.0)
    ensures Apart(s.farms, s.coords) ==>
              Apart(Cascade(rng, ticks, s, Render(st)).value.0.farms,
                    Cascade(rng, ticks, s, Render(st)).value.0.coords)
    ensures AllInterior(s.coords) ==> AllInterior(Cascade(rng, ticks, s, Render(st)).value.0.coords)
    decreases WE.BatchCount(Render(st)), WE.FineWeight(Render(st))
  {
    if st != Moving([]) {
      RenderSplit(st);
      HandleAdvances(st, rng, ticks, s);
      var (s', out) := Handle(Top(st), rng, ticks, s).value;
      var st' := NextStage(st, out);
      CascadeStep(rng, ticks, s, Render(st), s', out);
      WE.StepLowersRank(Render(Popped(st)), Top(st), out);
      CascadeCompletes(rng, ticks, s', st');
    }
  }

  class World {
    var events: seq<WE.WorldEvent>
    /** The entity arena: every key below it has been issued, none above. */
    var nextKey: nat
    var coords: map<Key, Coords>
    var lastId: nat
    var deathMarkers: map<Key, DeathMarker>
    var farms: map<Key, Farm>
    var ticks: nat
    var satiation: map<Key, U8>
    var villagers: map<Key, Villager>

    /** World::new: an empty world at tick 0 with one villager at (4, 4) and farms at
        (5, 4), (5, 5) and (5, 6), given keys 0 to 3 and ids 1 to 4 in that order. */
    constructor ()
      ensures events == [] && ticks == 0
      ensures villagers == map[0 := Villager(1, 0, 0)] && satiation == map[0 := 1]
      ensures farms == map[1 := Farm(2, 1, 0), 2 := Farm(3, 2, 0), 3 := Farm(4, 3, 0)]
      ensures coords == map[0 := (4, 4), 1 := (5, 4), 2 := (5, 5), 3 := (5, 6)]
      ensures deathMarkers == map[] && nextKey == 4 && lastId == 4
      ensures Valid() && FarmsApart() && InBounds()
    {
      events := [];
      nextKey := 0;
      coords := map[];
      lastId := 0;
      deathMarkers := map[];
      farms := map[];
      ticks := 0;
      satiation := map[];
      villagers := map[];
      new;
      var _ := AddVillagerAt(4, 4);
      assert nextKey == 1 && lastId == 1 && coords == map[][0 := (4, 4)];
      var _ := AddFarmAt(5, 4);
      assert nextKey == 2 && lastId == 2 && coords == map[][0 := (4, 4)][1 := (5, 4)];
      var _ := AddFarmAt(5, 5);
      assert nextKey == 3 && lastId == 3;
      var _ := AddFarmAt(5, 6);
      InitialMaps();
      InitialValid(coords, farms);
      InitialPlaces(coords, farms);
    }

    /** The world's invariant, WorldOk, on the current fields. */
    ghost predicate Valid()
      reads this`nextKey, this`coords, this`lastId, this`deathMarkers, this`farms,
        this`ticks, this`satiation, this`villagers
    {
      WorldOk(nextKey, coords, lastId, deathMarkers, farms, ticks, satiation, villagers)
    }

    /** No two farms stand on the same cell. */
    ghost predicate FarmsApart()
      reads this`farms, this`coords
    {
      Apart(farms, coords)
    }

    /** Every recorded position lies in the interior of the grid. */
    ghost predicate InBounds()
      reads this`coords
    {
      AllInterior(coords)
    }

    /** The cells currently held by farms. */
    ghost function FarmCells(): set<Coords>
      reads this`farms, this`coords
    {
      CellsOf(farms.Keys, coords)
    }

    /** The villagers' and the farms' keys in iteration order. */
    function VillagerKeys(): seq<Key>
      reads this`villagers, this`nextKey
    {
      KeysBelow(villagers.Keys, nextKey)
    }

    function FarmKeys(): seq<Key>
      reads this`farms, this`nextKey
    {
      KeysBelow(farms.Keys, nextKey)
    }

    /** The iteration order lists every villager and every farm, each once and in ascending
        key order, so a batch event fans out to exactly one event per entity. */
    lemma KeyOrder()
      requires Valid()
      ensures |VillagerKeys()| == |villagers| && |FarmKeys()| == |farms|
      ensures forall k :: k in villagers <==> k in VillagerKeys()
      ensures forall k :: k in farms <==> k in FarmKeys()
    {
      KeysBelowAll(villagers.Keys, nextKey);
      KeysBelowAll(farms.Keys, nextKey);
      KeysBelowExactly(villagers.Keys, nextKey);
      KeysBelowExactly(farms.Keys, nextKey);
    }

    /** The hunger rule: satiation below 5 and a meal less than 40 ticks ago. */
    predicate NeedToEat(vk: Key)
      requires vk in villagers && vk in satiation && villagers[vk].lastAte <= ticks
      reads this`villagers, this`satiation, this`ticks
    {
      satiation[vk] < MAX_SATIATION && ticks - villagers[vk].lastAte < HUNGER_WINDOW
    }

    /** The stage's needs, StageFits, on the current fields. */
    ghost predicate StageOk(st: Stage)
      reads this`farms, this`villagers, this`satiation, this`coords
    {
      StageFits(st, farms, villagers, satiation, coords)
    }

    /** The fields a handler may change, with `rng`'s draw count. */
    ghost function Snap(rng: Rng): Snapshot
      reads this`nextKey, this`coords, this`lastId, this`deathMarkers, this`farms,
        this`satiation, this`villagers, rng`drawn
    {
      Snapshot(nextKey, coords, lastId, deathMarkers, farms, satiation, villagers, rng.drawn)
    }

    /** The class's predicates are those on the snapshot of its fields. */
    lemma SnapFacts(rng: Rng, st: Stage)
      ensures Valid() == SnapOk(ticks, Snap(rng)) && StageOk(st) == Fits(st, Snap(rng))
      ensures FarmsApart() == Apart(Snap(rng).farms, Snap(rng).coords)
      ensures InBounds() == AllInterior(Snap(rng).coords)
    {
    }

    /** process_events: pops the top event, runs its handler and pushes the follow-ups,
        until the stack is empty. Started on the stack a cascade seeds, it ends with the
        stack empty and the world valid, in the state `Cascade` defines, and `trace` lists
        the events in the order they ran: the seeds in order, phases never going back,
        each meal between its harvest and its farm's removal. Farms that stood apart and
        positions in the interior stay so. */
    method ProcessEvents(rng: Rng) returns (ghost trace: seq<WE.WorldEvent>)
      requires Valid() && events == SEEDED
      modifies this, rng
      ensures Cascade(rng, ticks, old(Snap(rng)), SEEDED) == Some((Snap(rng), trace))
      ensures Valid() && events == [] && ticks == old(ticks)
      ensures WE.PhaseOrdered(trace) && WE.MealsInOrder(trace)
      ensures WE.Seeds(trace) ==
              [WE.GravesCleared, WE.FarmsCultivated, WE.VillagersFarmed, WE.VillagersMoved]
      ensures old(FarmsApart()) ==> FarmsApart()
      ensures old(InBounds()) ==> InBounds()
    {
      ghost var st := Seeded;
      trace := [];
      PrefixedNothing(Cascade(rng, ticks, Snap(rng), events));
      while events != []
        invariant Valid() && Shaped(st) && StageOk(st) && events == Render(st)
        invariant TraceOk(st, trace)
        invariant ticks == old(ticks)
        invariant Cascade(rng, ticks, old(Snap(rng)), SEEDED) ==
                  Prefixed(trace, Cascade(rng, ticks, Snap(rng), events))
        invariant old(FarmsApart()) ==> FarmsApart()
        invariant old(InBounds()) ==> InBounds()
        decreases WE.BatchCount(events), WE.FineWeight(events)
      {
        ghost var s := Snap(rng);
        ghost var st0 := st;
        SnapFacts(rng, st);
        RenderSplit(st);
        var evt, newEvents;
        evt, newEvents, st := ProcessTop(rng, st);
        RunStep(st0, st, rng, ticks, old(Snap(rng)), s, Snap(rng), newEvents, trace);
        trace := trace + [evt];
      }
      Finished(trace);
      assert trace + [] == trace;
    }

    /** One round of process_events' loop: pops the top event `evt`, runs its handler and
        pushes the follow-ups `newEvents` it returns. The handler's outcome is the one
        `Handle` defines; the world stays valid and the stack moves to the next stage. */
    method ProcessTop(rng: Rng, ghost st: Stage)
      returns (evt: WE.WorldEvent, newEvents: seq<WE.WorldEvent>, ghost st': Stage)
      requires SnapOk(ticks, Snap(rng)) && Shaped(st) && Fits(st, Snap(rng))
      requires events == Render(st) && events != []
      modifies this, rng
      ensures evt == old(events)[|old(events)| - 1] && st' == NextStage(st, newEvents)
      ensures events == old(events)[..|old(events)| - 1] + newEvents
      ensures Handle(evt, rng, ticks, old(Snap(rng))) == Some((Snap(rng), newEvents))
      ensures SnapOk(ticks, Snap(rng)) && Shaped(st') && Fits(st', Snap(rng))
      ensures events == Render(st') && Follows(st, st') && ticks == old(ticks)
      ensures Apart(old(farms), old(coords)) ==> Apart(farms, coords)
      ensures AllInterior(old(coords)) ==> AllInterior(coords)
    {
      ghost var s := Snap(rng);
      HandleSafe(st, rng, ticks, s);
      RenderSplit(st);
      evt, newEvents := Pop(rng);
      st' := NextStage(st, newEvents);
      TopStep(st, st', rng, ticks, s, Snap(rng), newEvents);
    }

    /** Pops the top event `evt`, runs its handler and pushes the follow-ups `newEvents`. */
    method Pop(rng: Rng) returns (evt: WE.WorldEvent, newEvents: seq<WE.WorldEvent>)
      requires Valid() && events != []
      requires Handle(events[|events| - 1], rng, ticks, Snap(rng)).Some?
      modifies this, rng
      ensures evt == old(events)[|old(events)| - 1]
      ensures events == old(events)[..|old(events)| - 1] + newEvents
      ensures Handle(evt, rng, ticks, old(Snap(rng))) == Some((Snap(rng), newEvents))
      ensures ticks == old(ticks)
    {
      evt := events[|events| - 1];
      var rest := events[..|events| - 1];
      newEvents := Dispatch(evt, rng);
      events := rest + newEvents;
    }

    /** Runs the handler of one popped event: the match of process_events. In a valid world,
        for an event `Handle` does not panic on, the fields it changes and the follow-ups it
        returns are those `Handle` gives for `evt`. */
    method Dispatch(evt: WE.WorldEvent, rng: Rng) returns (newEvents: seq<WE.WorldEvent>)
      requires Valid() && Handle(evt, rng, ticks, Snap(rng)).Some?
      modifies this`coords, this`satiation, this`villagers, this`farms, this`nextKey
      modifies this`deathMarkers, this`lastId, rng
      ensures Handle(evt, rng, ticks, old(Snap(rng))) == Some((Snap(rng), newEvents))
    {
      newEvents := [];
      match evt
      case VillagerMoved(key, dir) => StepVillagerMoved(key, dir, rng);
      case VillagerAte(key) => StepVillagerAte(key, rng);
      case VillagerHungered(key) => newEvents := StepVillagerHungered(key, rng);
      case FarmGrew(key) => newEvents := StepFarmGrew(key, rng);
      case FarmHarvested(key) => StepFarmHarvested(key, rng);
      case VillagerDied(vk) => StepVillagerDied(vk, rng);
      case FarmAdded(c) => StepFarmAdded(c, rng);
      case VillagerHarvested(vk) => newEvents := StepVillagerHarvested(vk, rng);
      case GravesCleared => StepGravesCleared(rng);
      case FarmsCultivated => newEvents := StepFarmsCultivated(rng);
      case VillagersFarmed => newEvents := StepVillagersFarmed(rng);
      case VillagersMoved => newEvents := StepVillagersMoved(rng);
    }

    // Each step runs one handler on an event `Handle` does not panic on and gives the
    // outcome `Handle` defines.

    method StepVillagerMoved(key: Key, dir: Direction, rng: Rng)
      requires Handle(WE.VillagerMoved(key, dir), rng, ticks, Snap(rng)).Some?
      modifies this`coords
      ensures Handle(WE.VillagerMoved(key, dir), rng, ticks, old(Snap(rng))) == Some((Snap(rng), []))
    {
      HandleMovedIs(key, dir, rng, ticks, Snap(rng));
      VillagerMoved(key, dir);
    }

    method StepVillagerAte(key: Key, rng: Rng)
      requires Handle(WE.VillagerAte(key), rng, ticks, Snap(rng)).Some?
      modifies this`satiation, this`villagers
      ensures Handle(WE.VillagerAte(key), rng, ticks, old(Snap(rng))) == Some((Snap(rng), []))
    {
      HandleAteIs(key, rng, ticks, Snap(rng));
      VillagerAte(key);
    }

    method StepVillagerHungered(key: Key, rng: Rng) returns (newEvents: seq<WE.WorldEvent>)
      requires Handle(WE.VillagerHungered(key), rng, ticks, Snap(rng)).Some?
      modifies this`satiation, this`villagers
      ensures Handle(WE.VillagerHungered(key), rng, ticks, old(Snap(rng))) ==
              Some((Snap(rng), newEvents))
    {
      HandleHungeredIs(key, rng, ticks, Snap(rng));
      newEvents := VillagerHungered(key);
    }

    method StepFarmGrew(key: Key, rng: Rng) returns (newEvents: seq<WE.WorldEvent>)
      requires Valid() && Handle(WE.FarmGrew(key), rng, ticks, Snap(rng)).Some?
      modifies this`farms, rng
      ensures Handle(WE.FarmGrew(key), rng, ticks, old(Snap(rng))) == Some((Snap(rng), newEvents))
    {
      HandleDelegates(key, rng, ticks, Snap(rng));
      newEvents := FarmGrew(key, rng);
    }

    method StepFarmHarvested(key: Key, rng: Rng)
      modifies this`farms
      ensures Handle(WE.FarmHarvested(key), rng, ticks, old(Snap(rng))) == Some((Snap(rng), []))
    {
      HandleFarmHarvestedIs(key, rng, ticks, Snap(rng));
      FarmHarvested(key);
    }

    method StepVillagerDied(vk: Key, rng: Rng)
      requires Handle(WE.VillagerDied(vk), rng, ticks, Snap(rng)).Some?
      modifies this`nextKey, this`deathMarkers, this`coords, this`villagers
      ensures Handle(WE.VillagerDied(vk), rng, ticks, old(Snap(rng))) == Some((Snap(rng), []))
    {
      HandleDiedIs(vk, rng, ticks, Snap(rng));
      VillagerDied(vk);
    }

    method StepFarmAdded(c: Coords, rng: Rng)
      modifies this`nextKey, this`lastId, this`farms, this`coords
      ensures Handle(WE.FarmAdded(c), rng, ticks, old(Snap(rng))) == Some((Snap(rng), []))
    {
      HandleAddedIs(c, rng, ticks, Snap(rng));
      FarmAdded(c);
    }

    method StepVillagerHarvested(vk: Key, rng: Rng) returns (newEvents: seq<WE.WorldEvent>)
      requires Valid() && Handle(WE.VillagerHarvested(vk), rng, ticks, Snap(rng)).Some?
      modifies rng
      ensures Handle(WE.VillagerHarvested(vk), rng, ticks, old(Snap(rng))) ==
              Some((Snap(rng), newEvents))
    {
      HandleDelegates(vk, rng, ticks, Snap(rng));
      newEvents := VillagerHarvested(vk, rng);
    }

    method StepGravesCleared(rng: Rng)
      modifies this`deathMarkers
      ensures Handle(WE.GravesCleared, rng, ticks, old(Snap(rng))) == Some((Snap(rng), []))
    {
      HandleBatchIs(rng, ticks, Snap(rng));
      GravesCleared();
    }

    method StepFarmsCultivated(rng: Rng) returns (newEvents: seq<WE.WorldEvent>)
      requires Valid()
      ensures Handle(WE.FarmsCultivated, rng, ticks, old(Snap(rng))) == Some((Snap(rng), newEvents))
    {
      HandleBatchIs(rng, ticks, Snap(rng));
      newEvents := FarmsCultivated();
      assert newEvents == Growths(Snap(rng));
    }

    method StepVillagersFarmed(rng: Rng) returns (newEvents: seq<WE.WorldEvent>)
      requires Valid()
      ensures Handle(WE.VillagersFarmed, rng, ticks, old(Snap(rng))) == Some((Snap(rng), newEvents))
    {
      HandleBatchIs(rng, ticks, Snap(rng));
      newEvents := VillagersFarmed();
      assert newEvents == Harvests(Snap(rng));
    }

    method StepVillagersMoved(rng: Rng) returns (newEvents: seq<WE.WorldEvent>)
      requires Valid()
      modifies rng
      ensures Handle(WE.VillagersMoved, rng, ticks, old(Snap(rng))) == Some((Snap(rng), newEvents))
    {
      ghost var s := Snap(rng);
      newEvents := VillagersMoved(rng);
      MovesAre(rng, s, newEvents);
      assert Snap(rng) == s.(drawn := s.drawn + |VillagerOrder(s)|);
      HandleBatchIs(rng, ticks, s);
    }

    // ---------------------------------------------------------------- handlers

    method VillagerMoved(key: Key, dir: Direction)
      requires key in coords
      modifies this`coords
      ensures coords == old(coords)[key := CoordsAfterMove(old(coords)[key], dir)]
      ensures old(Valid()) ==> Valid()
      ensures old(InBounds()) ==> InBounds()
      ensures key !in farms && old(FarmsApart()) ==> FarmsApart()
    {
      var c := coords[key];
      coords := coords[key := CoordsAfterMove(c, dir)];
    }

    method VillagerAte(key: Key)
      requires key in satiation && key in villagers && satiation[key] < 255
      modifies this`satiation, this`villagers
      ensures satiation == old(satiation)[key := old(satiation)[key] + 1]
      ensures villagers == old(villagers)[key := old(villagers)[key].(lastAte := ticks)]
      ensures old(Valid()) && old(satiation[key]) < MAX_SATIATION ==> Valid()
    {
      satiation := satiation[key := satiation[key] + 1];
      var villager := villagers[key];
      villager := villager.(lastAte := ticks);
      villagers := villagers[key := villager];
    }

    /** A hungry villager with food in reserve uses one unit and counts as fed; one with
        none left dies. */
    method VillagerHungered(key: Key) returns (newEvents: seq<WE.WorldEvent>)
      requires key in satiation && (satiation[key] > 0 ==> key in villagers)
      modifies this`satiation, this`villagers
      ensures old(satiation[key]) > 0 ==>
        && satiation == old(satiation)[key := old(satiation)[key] - 1]
        && villagers == old(villagers)[key := old(villagers)[key].(lastAte := ticks)]
        && newEvents == []
      ensures old(satiation[key]) == 0 ==>
        satiation == old(satiation) && villagers == old(villagers) &&
        newEvents == [WE.VillagerDied(key)]
      ensures old(Valid()) ==> Valid()
    {
      if satiation[key] > 0 {
        satiation := satiation[key := satiation[key] - 1];
        var villager := villagers[key];
        villager := villager.(lastAte := ticks);
        villagers := villagers[key := villager];
        newEvents := [];
      } else {
        newEvents := [WE.VillagerDied(key)];
      }
    }

    /** A farm past its cooldown grows: it restarts the cooldown and, if some neighbouring
        cell is free of farms, asks for a new farm on one of them chosen by `rng`. */
    method FarmGrew(key: Key, rng: Rng) returns (newEvents: seq<WE.WorldEvent>)
      requires Valid() && key in farms
      modifies this`farms, rng
      ensures ticks - old(farms[key].lastGrew) < GROWTH_COOLDOWN ==>
        farms == old(farms) && newEvents == [] && rng.drawn == old(rng.drawn)
      ensures ticks - old(farms[key].lastGrew) >= GROWTH_COOLDOWN ==>
        && farms == old(farms)[key := old(farms[key]).(lastGrew := ticks)]
        && (var free := FreeCells(coords[key], FarmCells());
            && (free == [] ==> newEvents == [] && rng.drawn == old(rng.drawn))
            && (free != [] ==>
                  newEvents == [WE.FarmAdded(free[rng.Index(old(rng.drawn), |free|)])] &&
                  rng.drawn == old(rng.drawn) + 1))
      ensures Valid() && farms.Keys == old(farms.Keys)
      ensures GrowFarm(key, rng, ticks, old(Snap(rng))) == Some((Snap(rng), newEvents))
      ensures old(FarmsApart()) ==> FarmsApart()
      ensures newEvents != [] ==>
        && |newEvents| == 1 && newEvents[0].FarmAdded?
        && Adjacent(coords[key], newEvents[0].coords)
        && newEvents[0].coords !in FarmCells()
        && (Interior(coords[key]) ==> Interior(newEvents[0].coords))
    {
      ghost var s := Snap(rng);
      var farm := farms[key];
      if ticks - farm.lastGrew < GROWTH_COOLDOWN {
        return [];
      }
      MarkGrown(key);

      var farmCoords := coords[key];
      var allPossible := PossibleCoords(farmCoords);
      var ks := FarmKeys();
      allPossible := RetainUnoccupied(allPossible, ks);
      KeysBelowExactly(farms.Keys, nextKey);
      assert allPossible == FreeCells(s.coords[key], CellsOf(s.farms.Keys, s.coords));

      if |allPossible| == 0 {
        GrowFarmIs(key, rng, ticks, s, Snap(rng), []);
        return [];
      }
      var ci := rng.GenRange(|allPossible|);
      newEvents := [WE.FarmAdded(allPossible[ci])];
      GrowFarmIs(key, rng, ticks, s, Snap(rng), newEvents);
    }

    /** Restarts a farm's growth cooldown. */
    method MarkGrown(key: Key)
      requires key in farms
      modifies this`farms
      ensures farms == old(farms)[key := old(farms[key]).(lastGrew := ticks)]
      ensures farms.Keys == old(farms.Keys)
      ensures old(Valid()) ==> Valid()
      ensures old(FarmsApart()) ==> FarmsApart()
    {
      var farm := farms[key];
      farm := farm.(lastGrew := ticks);
      farms := farms[key := farm];
    }

    /** The second half of the growth rule: drop from `cands` every cell that one of the
        farms `ks` stands on, visiting the farms in order and stopping the lookups once no
        candidate is left. */
    method RetainUnoccupied(cands: seq<Coords>, ks: seq<Key>) returns (free: seq<Coords>)
      requires forall i :: 0 <= i < |ks| ==> ks[i] in coords
      ensures free == Without(cands, CellsOf(Elements(ks), coords))
    {
      ghost var seen: set<Key> := {};
      assert CellsOf(seen, coords) == {};
      WithoutNothing(cands);
      free := cands;
      for i := 0 to |ks|
        invariant seen == Elements(ks[..i])
        invariant free == Without(cands, CellsOf(seen, coords))
      {
        var k := ks[i];
        assert ks[..i + 1] == ks[..i] + [k];
        ElementsSnoc(ks[..i], k);
        ghost var cells := CellsOf(seen, coords);
        CellsOfAdd(seen, coords, k);
        if free == [] {
          WithoutNoneLeft(cands, cells, cells + {coords[k]});
        } else {
          var occupied := coords[k];
          WithoutTwice(cands, cells, {occupied});
          free := Without(free, {occupied});
        }
        seen := seen + {k};
      }
      assert ks[..|ks|] == ks;
    }

    method FarmHarvested(key: Key)
      modifies this`farms
      ensures farms == old(farms) - {key}
      ensures old(Valid()) ==> Valid()
      ensures old(FarmsApart()) ==> FarmsApart()
    {
      farms := farms - {key};
    }

    /** A dead villager leaves a grave, a new entity, on its cell and loses its villager
        record; its coordinates and satiation entries stay. */
    method VillagerDied(vk: Key)
      requires vk in coords
      modifies this`nextKey, this`deathMarkers, this`coords, this`villagers
      ensures nextKey == old(nextKey) + 1
      ensures deathMarkers == old(deathMarkers)[old(nextKey) := DeathMarker(old(nextKey))]
      ensures coords == old(coords)[old(nextKey) := old(coords)[vk]]
      ensures villagers == old(villagers) - {vk}
      ensures old(Valid()) ==> Valid()
      ensures old(InBounds()) ==> InBounds()
      ensures old(Valid()) && old(FarmsApart()) ==> FarmsApart()
    {
      var c := coords[vk];
      var dmk := nextKey;
      nextKey := nextKey + 1;
      deathMarkers := deathMarkers[dmk := DeathMarker(dmk)];
      coords := coords[dmk := c];
      villagers := villagers - {vk};
    }

    /** A new farm at `c`, with a fresh key and the next id; it counts as having just grown.
        This is also what placing a farm from outside does. */
    method FarmAdded(c: Coords)
      modifies this`nextKey, this`lastId, this`farms, this`coords
      ensures nextKey == old(nextKey) + 1 && lastId == old(lastId) + 1
      ensures farms == old(farms)[old(nextKey) := Farm(lastId, old(nextKey), ticks)]
      ensures coords == old(coords)[old(nextKey) := c]
      ensures old(Valid()) ==> Valid()
      ensures old(InBounds()) && Interior(c) ==> InBounds()
      ensures old(Valid()) && old(FarmsApart()) && c !in old(FarmCells()) ==> FarmsApart()
    {
      if Valid() {
        FarmInsertOk(nextKey, coords, lastId, deathMarkers, farms, ticks, satiation, villagers, c);
      }
      var _ := AddFarmAt(c.0, c.1);
    }

    /** A villager in need eats from one farm chosen by `rng` (the farm is harvested after
        the meal, LIFO), or goes hungry when no farm is left. */
    method VillagerHarvested(vk: Key, rng: Rng) returns (newEvents: seq<WE.WorldEvent>)
      requires Valid() && vk in villagers
      modifies rng
      ensures NeedToEat(vk) && farms != map[] ==>
        && |FarmKeys()| > 0
        && newEvents == [WE.FarmHarvested(FarmKeys()[rng.Index(old(rng.drawn), |FarmKeys()|)]),
                         WE.VillagerAte(vk)]
        && newEvents[0].key in farms
        && rng.drawn == old(rng.drawn) + 1
      ensures NeedToEat(vk) && farms == map[] ==>
        newEvents == [WE.VillagerHungered(vk)] && rng.drawn == old(rng.drawn)
      ensures !NeedToEat(vk) ==> newEvents == [] && rng.drawn == old(rng.drawn)
      ensures Harvest(vk, rng, ticks, old(Snap(rng))) == Some((Snap(rng), newEvents))
    {
      ghost var s := Snap(rng);
      var villager := villagers[vk];
      var sat := satiation[vk];
      var ks := FarmKeys();
      var timeSinceLastAte := ticks - villager.lastAte;
      var needToEat := sat < MAX_SATIATION && timeSinceLastAte < HUNGER_WINDOW;
      var foodLeftToEat := |ks| > 0;
      if farms != map[] {
        var k :| k in farms;
        KeysBelowCovers(farms.Keys, nextKey, k);
      } else {
        KeysBelowNone(farms.Keys, nextKey);
      }
      newEvents := [];
      if needToEat {
        if foodLeftToEat {
          var index := rng.GenRange(|ks|);
          var farm := farms[ks[index]];
          newEvents := [WE.FarmHarvested(farm.key), WE.VillagerAte(vk)];
        } else {
          newEvents := [WE.VillagerHungered(vk)];
        }
      }
      HarvestIs(vk, rng, ticks, s, Snap(rng), newEvents);
    }

    method GravesCleared()
      modifies this`deathMarkers
      ensures deathMarkers == map[]
      ensures old(Valid()) ==> Valid()
    {
      deathMarkers := map[];
    }

    /** One FarmGrew per farm, in key order. */
    method FarmsCultivated() returns (newEvents: seq<WE.WorldEvent>)
      requires Valid()
      ensures |newEvents| == |FarmKeys()| == |farms|
      ensures forall i :: 0 <= i < |newEvents| ==> newEvents[i] == WE.FarmGrew(FarmKeys()[i])
    {
      var ks := FarmKeys();
      KeysBelowAll(farms.Keys, nextKey);
      newEvents := [];
      for i := 0 to |ks|
        invariant |newEvents| == i
        invariant forall j :: 0 <= j < i ==> newEvents[j] == WE.FarmGrew(ks[j])
      {
        var farm := farms[ks[i]];
        newEvents := newEvents + [WE.FarmGrew(farm.key)];
      }
    }

    /** One VillagerHarvested per villager, in key order. */
    method VillagersFarmed() returns (newEvents: seq<WE.WorldEvent>)
      requires Valid()
      ensures |newEvents| == |VillagerKeys()| == |villagers|
      ensures forall i :: 0 <= i < |newEvents| ==>
        newEvents[i] == WE.VillagerHarvested(VillagerKeys()[i])
    {
      var ks := VillagerKeys();
      KeysBelowAll(villagers.Keys, nextKey);
      newEvents := [];
      for i := 0 to |ks|
        invariant |newEvents| == i
        invariant forall j :: 0 <= j < i ==> newEvents[j] == WE.VillagerHarvested(ks[j])
      {
        newEvents := newEvents + [WE.VillagerHarvested(ks[i])];
      }
    }

    /** One VillagerMoved per villager, in key order, each in a direction drawn from `rng`. */
    method VillagersMoved(rng: Rng) returns (newEvents: seq<WE.WorldEvent>)
      requires Valid()
      modifies rng
      ensures |newEvents| == |VillagerKeys()| == |villagers|
      ensures rng.drawn == old(rng.drawn) + |newEvents|
      ensures forall i :: 0 <= i < |newEvents| ==>
        newEvents[i] == WE.VillagerMoved(VillagerKeys()[i],
                                          rng.DirectionAt(old(rng.drawn) + i))
    {
      var ks := VillagerKeys();
      KeysBelowAll(villagers.Keys, nextKey);
      newEvents := [];
      for i := 0 to |ks|
        invariant |newEvents| == i && rng.drawn == old(rng.drawn) + i
        invariant forall j :: 0 <= j < i ==>
          newEvents[j] == WE.VillagerMoved(ks[j], rng.DirectionAt(old(rng.drawn) + j))
      {
        var direction := rng.RandomDirection();
        newEvents := newEvents + [WE.VillagerMoved(ks[i], direction)];
      }
    }

    // ---------------------------------------------------------------- placement

    /** Places a new villager at (x, y) with satiation 1; returns its id, the next one. In a
        valid world the result is valid again (VillagerPlaced). */
    method AddVillagerAt(x: U8, y: U8) returns (id: nat)
      modifies this`nextKey, this`lastId, this`villagers, this`coords, this`satiation
      ensures id == old(lastId) + 1 && lastId == id && nextKey == old(nextKey) + 1
      ensures villagers == old(villagers)[old(nextKey) := Villager(id, old(nextKey), ticks)]
      ensures coords == old(coords)[old(nextKey) := (x, y)]
      ensures satiation == old(satiation)[old(nextKey) := 1]
      ensures farms == old(farms) && deathMarkers == old(deathMarkers) && ticks == old(ticks)
    {
      var newId := lastId + 1;
      var key := nextKey;
      nextKey := nextKey + 1;
      var villager := Villager(newId, key, ticks);
      villagers := villagers[key := villager];
      coords := coords[key := (x, y)];
      satiation := satiation[key := 1];
      lastId := newId;
      id := newId;
    }

    /** Places a new farm at (x, y) that counts as having just grown; returns its id. In a
        valid world the result is valid again (FarmPlaced). */
    method AddFarmAt(x: U8, y: U8) returns (id: nat)
      modifies this`nextKey, this`lastId, this`farms, this`coords
      ensures id == old(lastId) + 1 && lastId == id && nextKey == old(nextKey) + 1
      ensures farms == old(farms)[old(nextKey) := Farm(id, old(nextKey), ticks)]
      ensures coords == old(coords)[old(nextKey) := (x, y)]
      ensures villagers == old(villagers) && satiation == old(satiation)
      ensures deathMarkers == old(deathMarkers) && ticks == old(ticks)
    {
      var newId := lastId + 1;
      var key := nextKey;
      nextKey := nextKey + 1;
      var farm := Farm(newId, key, ticks);
      lastId := newId;
      farms := farms[key := farm];
      coords := coords[key := (x, y)];
      lastId := newId;
      id := newId;
    }

    /** A villager placed as AddVillagerAt places it, in a world that was valid, leaves it
        valid. */
    twostate lemma VillagerPlaced(x: U8, y: U8)
      requires old(Valid())
      requires nextKey == old(nextKey) + 1 && lastId == old(lastId) + 1
      requires villagers == old(villagers)[old(nextKey) := Villager(lastId, old(nextKey), ticks)]
      requires coords == old(coords)[old(nextKey) := (x, y)]
      requires satiation == old(satiation)[old(nextKey) := 1]
      requires farms == old(farms) && deathMarkers == old(deathMarkers) && ticks == old(ticks)
      ensures Valid()
    {
      VillagerInsertOk(old(nextKey), old(coords), old(lastId), deathMarkers, farms, ticks,
                       old(satiation), old(villagers), (x, y));
    }

    /** A farm placed as AddFarmAt places it, in a world that was valid, leaves it valid. */
    twostate lemma FarmPlaced(x: U8, y: U8)
      requires old(Valid())
      requires nextKey == old(nextKey) + 1 && lastId == old(lastId) + 1
      requires farms == old(farms)[old(nextKey) := Farm(lastId, old(nextKey), ticks)]
      requires coords == old(coords)[old(nextKey) := (x, y)]
      requires villagers == old(villagers) && satiation == old(satiation)
      requires deathMarkers == old(deathMarkers) && ticks == old(ticks)
      ensures Valid()
    {
      FarmInsertOk(old(nextKey), old(coords), old(lastId), deathMarkers, old(farms), ticks,
                   satiation, villagers, (x, y));
    }

    /** tick: advances the clock by one and, when the new tick is due, runs a cascade
        (advance_world), ending as `Cascade` defines. Otherwise nothing but the clock
        changes and no event runs. */
    method Tick(rng: Rng) returns (ghost trace: seq<WE.WorldEvent>)
      requires Valid() && events == []
      modifies this, rng
      ensures ticks == old(ticks) + 1
      ensures Valid() && events == []
      ensures CascadeDue(ticks) ==>
                Cascade(rng, ticks, old(Snap(rng)), SEEDED) == Some((Snap(rng), trace))
      ensures CascadeDue(ticks) ==>
                WE.PhaseOrdered(trace) && WE.MealsInOrder(trace) && WE.Seeds(trace) ==
                [WE.GravesCleared, WE.FarmsCultivated, WE.VillagersFarmed, WE.VillagersMoved]
      ensures !CascadeDue(ticks) ==>
                trace == [] && nextKey == old(nextKey) && coords == old(coords) &&
                lastId == old(lastId) && deathMarkers == old(deathMarkers) &&
                farms == old(farms) && satiation == old(satiation) &&
                villagers == old(villagers) && rng.drawn == old(rng.drawn)
      ensures old(FarmsApart()) ==> FarmsApart()
      ensures old(InBounds()) ==> InBounds()
    {
      ticks := ticks + 1;
      trace := [];
      if CascadeDue(ticks) {
        trace := AdvanceWorld(rng);
      }
    }

    /** advance_world: pushes the four batch events so that GravesCleared is on top and
        VillagersMoved at the bottom, then drains the stack; the world ends as `Cascade`
        of the seeded stack defines. */
    method AdvanceWorld(rng: Rng) returns (ghost trace: seq<WE.WorldEvent>)
      requires Valid() && events == []
      modifies this, rng
      ensures Cascade(rng, ticks, old(Snap(rng)), SEEDED) == Some((Snap(rng), trace))
      ensures Valid() && events == [] && ticks == old(ticks)
      ensures WE.PhaseOrdered(trace) && WE.MealsInOrder(trace)
      ensures WE.Seeds(trace) ==
              [WE.GravesCleared, WE.FarmsCultivated, WE.VillagersFarmed, WE.VillagersMoved]
      ensures old(FarmsApart()) ==> FarmsApart()
      ensures old(InBounds()) ==> InBounds()
    {
      events := events + [WE.VillagersMoved];
      events := events + [WE.VillagersFarmed];
      events := events + [WE.FarmsCultivated];
      events := events + [WE.GravesCleared];
      assert events == SEEDED;
      trace := ProcessEvents(rng);
    }

    /** What the lookups need: every villager's key was issued, the villager record names
        its own key and the villager has coordinates. */
    ghost predicate Located()
      reads this`villagers, this`coords, this`nextKey
    {
      forall k :: k in villagers ==> k < nextKey && villagers[k].key == k && k in coords
    }

    /** A valid world can be searched. */
    lemma ValidLocated()
      requires Valid()
      ensures Located()
    {
    }

    /** villager_id_at: the id of the first villager, in iteration order, standing at
        (x, y); None when no villager stands there. */
    method VillagerIdAt(x: U8, y: U8) returns (r: Option<nat>)
      requires Located()
      ensures r.Some? <==> exists k :: k in villagers && coords[k] == (x, y)
      ensures r.Some? ==>
                exists i :: 0 <= i < |VillagerKeys()| && coords[VillagerKeys()[i]] == (x, y) &&
                  r.value == villagers[VillagerKeys()[i]].id &&
                  forall j :: 0 <= j < i ==> coords[VillagerKeys()[j]] != (x, y)
    {
      var ks := VillagerKeys();
      var i := 0;
      while i < |ks|
        invariant 0 <= i <= |ks|
        invariant forall j :: 0 <= j < i ==> coords[ks[j]] != (x, y)
      {
        var v := villagers[ks[i]];
        var (vx, vy) := coords[v.key];
        if vx == x && vy == y {
          return Some(v.id);
        }
        i := i + 1;
      }
      forall k | k in villagers
        ensures coords[k] != (x, y)
      {
        KeysBelowCovers(villagers.Keys, nextKey, k);
      }
      return None;
    }

    /** villager: the villager with id `id`, if there is one. Ids are unique in a valid
        world, so the answer is that villager whichever order the search takes. */
    method VillagerWithId(id: nat) returns (r: Option<Villager>)
      requires Located()
      ensures r.Some? <==> exists k :: k in villagers && villagers[k].id == id
      ensures r.Some? ==> r.value in villagers.Values && r.value.id == id
      ensures Valid() ==>
                forall k :: k in villagers && villagers[k].id == id ==> r == Some(villagers[k])
    {
      var ks := VillagerKeys();
      var i := 0;
      while i < |ks|
        invariant 0 <= i <= |ks|
        invariant forall j :: 0 <= j < i ==> villagers[ks[j]].id != id
      {
        var v := villagers[ks[i]];
        if v.id == id {
          return Some(v);
        }
        i := i + 1;
      }
      forall k | k in villagers
        ensures villagers[k].id != id
      {
        KeysBelowCovers(villagers.Keys, nextKey, k);
      }
      return None;
    }
  }
}

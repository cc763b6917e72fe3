/** The events of the villager simulation, and the ranking on event kinds that makes every
    cascade finite. */
module BitterEvents {
  import opened Grid
  import opened Keys

  datatype WorldEvent =
    | VillagerMoved(key: Key, dir: Direction)
    | VillagerAte(key: Key)
    | VillagerHungered(key: Key)
    | FarmGrew(key: Key)
    | FarmHarvested(key: Key)
    | VillagerDied(key: Key)
    | FarmAdded(coords: Coords)
    | VillagerHarvested(key: Key)
    | GravesCleared
    | FarmsCultivated
    | VillagersFarmed
    | VillagersMoved

  /** The fan-out events: one follow-up event per farm or per villager. */
  predicate IsBatch(e: WorldEvent) {
    e.FarmsCultivated? || e.VillagersFarmed? || e.VillagersMoved?
  }

  /** The rank of a fine-grained event: one more than the most its handler's follow-ups can
      weigh together (a harvest may emit a FarmHarvested and a VillagerAte, or a
      VillagerHungered; hunger may emit a VillagerDied; growth may emit a FarmAdded).
      Batch events weigh nothing here; they are counted separately. */
  function Weight(e: WorldEvent): nat {
    match e
    case VillagerHarvested(_) => 3
    case VillagerHungered(_) => 2
    case FarmGrew(_) => 2
    case FarmsCultivated => 0
    case VillagersFarmed => 0
    case VillagersMoved => 0
    case _ => 1
  }

  /** The number of batch events on a stack. */
  function BatchCount(s: seq<WorldEvent>): nat {
    if s == [] then 0 else BatchCount(s[..|s| - 1]) + (if IsBatch(s[|s| - 1]) then 1 else 0)
  }

  /** The total weight of the fine-grained events on a stack. */
  function FineWeight(s: seq<WorldEvent>): nat {
    if s == [] then 0 else FineWeight(s[..|s| - 1]) + Weight(s[|s| - 1])
  }

  lemma {:induction false} BatchCountAppend(s: seq<WorldEvent>, t: seq<WorldEvent>)
    ensures BatchCount(s + t) == BatchCount(s) + BatchCount(t)
  {
    if t == [] {
      assert s + t == s;
    } else {
      BatchCountAppend(s, t[..|t| - 1]);
      assert (s + t)[..|s + t| - 1] == s + t[..|t| - 1];
    }
  }

  lemma {:induction false} FineWeightAppend(s: seq<WorldEvent>, t: seq<WorldEvent>)
    ensures FineWeight(s + t) == FineWeight(s) + FineWeight(t)
  {
    if t == [] {
      assert s + t == s;
    } else {
      FineWeightAppend(s, t[..|t| - 1]);
      assert (s + t)[..|s + t| - 1] == s + t[..|t| - 1];
    }
  }

  /** A stack without batch events has batch count zero. */
  lemma {:induction false} NoBatches(s: seq<WorldEvent>)
    requires forall i :: 0 <= i < |s| ==> !IsBatch(s[i])
    ensures BatchCount(s) == 0
  {
    if s != [] {
      NoBatches(s[..|s| - 1]);
    }
  }

  /** The ranking of a two-event push, event by event. */
  lemma PairRanks(a: WorldEvent, b: WorldEvent)
    ensures BatchCount([a, b]) == BatchCount([a]) + BatchCount([b])
    ensures FineWeight([a, b]) == Weight(a) + Weight(b)
  {
    assert [a, b][..1] == [a];
    assert [a][..0] == [];
    assert FineWeight([a]) == Weight(a);
  }

  /** Pushing `out` in place of `e` lowers the ranking: no batch event among them and, for
      a fine-grained `e`, less weight than `e`. */
  predicate Lowers(e: WorldEvent, out: seq<WorldEvent>) {
    BatchCount(out) == 0 && (IsBatch(e) || FineWeight(out) < Weight(e))
  }

  lemma LowersByNothing(e: WorldEvent)
    requires !IsBatch(e)
    ensures Lowers(e, [])
  {
  }

  lemma LowersByOne(e: WorldEvent, a: WorldEvent)
    requires !IsBatch(a) && Weight(a) < Weight(e)
    ensures Lowers(e, [a])
  {
    assert [a][..0] == [];
  }

  lemma LowersByTwo(e: WorldEvent, a: WorldEvent, b: WorldEvent)
    requires !IsBatch(a) && !IsBatch(b) && Weight(a) + Weight(b) < Weight(e)
    ensures Lowers(e, [a, b])
  {
    PairRanks(a, b);
    assert [a][..0] == [] && [b][..0] == [];
  }

  lemma LowersByFanOut(e: WorldEvent, out: seq<WorldEvent>)
    requires IsBatch(e) && forall i :: 0 <= i < |out| ==> !IsBatch(out[i])
    ensures Lowers(e, out)
  {
    NoBatches(out);
  }

  /** Replacing the top event `e` by the events its handler produced lowers the ranking
      (batch count first, then fine weight), provided the handler emits no batch event and,
      for a fine-grained `e`, emits less than `e` weighs. */
  lemma StepLowersRank(rest: seq<WorldEvent>, e: WorldEvent, produced: seq<WorldEvent>)
    requires BatchCount(produced) == 0
    requires IsBatch(e) || FineWeight(produced) < Weight(e)
    ensures BatchCount(rest + produced) < BatchCount(rest + [e]) ||
            (BatchCount(rest + produced) == BatchCount(rest + [e]) &&
             FineWeight(rest + produced) < FineWeight(rest + [e]))
  {
    BatchCountAppend(rest, produced);
    FineWeightAppend(rest, produced);
    assert (rest + [e])[..|rest + [e]| - 1] == rest;
  }

  /** The step of a cascade an event belongs to: the four seeded events and the fan-out of
      each, in the order a cascade runs them. */
  function Phase(e: WorldEvent): nat {
    match e
    case GravesCleared => 0
    case FarmsCultivated => 1
    case FarmGrew(_) => 2
    case FarmAdded(_) => 2
    case VillagersFarmed => 3
    case VillagerHarvested(_) => 4
    case FarmHarvested(_) => 4
    case VillagerAte(_) => 4
    case VillagerHungered(_) => 4
    case VillagerDied(_) => 4
    case VillagersMoved => 5
    case VillagerMoved(_, _) => 6
  }

  /** The events that advance_world seeds on the stack. */
  predicate IsSeed(e: WorldEvent) {
    e.GravesCleared? || IsBatch(e)
  }

  /** The seeded events of a run, in the order they occur. */
  function Seeds(t: seq<WorldEvent>): seq<WorldEvent> {
    if t == [] then [] else Seeds(t[..|t| - 1]) + (if IsSeed(t[|t| - 1]) then [t[|t| - 1]] else [])
  }

  lemma SeedsSnoc(t: seq<WorldEvent>, e: WorldEvent)
    ensures Seeds(t + [e]) == Seeds(t) + (if IsSeed(e) then [e] else [])
  {
    assert (t + [e])[..|t + [e]| - 1] == t;
  }

  /** A run whose phases never go back. */
  ghost predicate PhaseOrdered(t: seq<WorldEvent>) {
    forall i, j :: 0 <= i < j < |t| ==> Phase(t[i]) <= Phase(t[j])
  }

  /** In a run, each VillagerAte directly follows the VillagerHarvested of the same
      villager and is directly followed by a FarmHarvested. */
  ghost predicate MealsInOrder(t: seq<WorldEvent>) {
    forall i :: 0 <= i < |t| && t[i].VillagerAte? ==>
      0 < i < |t| - 1 && t[i - 1] == VillagerHarvested(t[i].key) && t[i + 1].FarmHarvested?
  }
}

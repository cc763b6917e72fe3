/** The shape of the event stack while a cascade runs, bottom to top. The four seeded
    events are replaced one by one by their fan-out; a harvest or a hunger check leaves at
    most two events above the remaining harvests. Used only in proofs about the cascade. */
module BitterStage {
  import opened Wrappers
  import opened Grid
  import opened Keys
  import WE = BitterEvents

  /** What a harvest or a hunger check left on top of the remaining harvests. */
  datatype Leftover =
    | Nothing
    | ToHarvest(farm: Key)
    | Meal(farm: Key, villager: Key)
    | Hunger(villager: Key)
    | Death(villager: Key)

  datatype Stage =
    | Seeded
    | Cleared
    | Growing(growths: seq<WE.WorldEvent>, added: Option<Coords>)
    | Harvesting(harvests: seq<WE.WorldEvent>, leftover: Leftover)
    | Moving(moves: seq<WE.WorldEvent>)

  /** The stack seeded at the start of a cascade, bottom to top. */
  const SEEDED: seq<WE.WorldEvent> :=
    [WE.VillagersMoved, WE.VillagersFarmed, WE.FarmsCultivated, WE.GravesCleared]

  function LeftoverEvents(l: Leftover): seq<WE.WorldEvent> {
    match l
    case Nothing => []
    case ToHarvest(f) => [WE.FarmHarvested(f)]
    case Meal(f, v) => [WE.FarmHarvested(f), WE.VillagerAte(v)]
    case Hunger(v) => [WE.VillagerHungered(v)]
    case Death(v) => [WE.VillagerDied(v)]
  }

  /** The stack a stage stands for; it is empty only when the cascade is over. */
  function Render(st: Stage): (r: seq<WE.WorldEvent>)
    ensures r == [] <==> st == Moving([])
  {
    match st
    case Seeded => SEEDED
    case Cleared => SEEDED[..3]
    case Growing(g, a) =>
      [WE.VillagersMoved, WE.VillagersFarmed] + g + (if a.Some? then [WE.FarmAdded(a.value)] else [])
    case Harvesting(h, l) => [WE.VillagersMoved] + h + LeftoverEvents(l)
    case Moving(m) => m
  }

  /** The events of each part have the kind that part is for. */
  ghost predicate Shaped(st: Stage) {
    match st
    case Growing(g, _) => forall i :: 0 <= i < |g| ==> g[i].FarmGrew?
    case Harvesting(h, _) => forall i :: 0 <= i < |h| ==> h[i].VillagerHarvested?
    case Moving(m) => forall i :: 0 <= i < |m| ==> m[i].VillagerMoved?
    case _ => true
  }

  /** The event on top of the stack. */
  function Top(st: Stage): WE.WorldEvent
    requires st != Moving([])
  {
    match st
    case Seeded => WE.GravesCleared
    case Cleared => WE.FarmsCultivated
    case Growing(g, a) =>
      if a.Some? then WE.FarmAdded(a.value) else if g != [] then g[|g| - 1] else WE.VillagersFarmed
    case Harvesting(h, l) =>
      (match l
       case ToHarvest(f) => WE.FarmHarvested(f)
       case Meal(_, v) => WE.VillagerAte(v)
       case Hunger(v) => WE.VillagerHungered(v)
       case Death(v) => WE.VillagerDied(v)
       case Nothing => if h != [] then h[|h| - 1] else WE.VillagersMoved)
    case Moving(m) => m[|m| - 1]
  }

  /** The stage left once the top event is popped, before its follow-ups are pushed. */
  function Popped(st: Stage): Stage
    requires st != Moving([])
  {
    match st
    case Seeded => Cleared
    case Cleared => Growing([], None)
    case Growing(g, a) =>
      if a.Some? then Growing(g, None)
      else if g != [] then Growing(g[..|g| - 1], None)
      else Harvesting([], Nothing)
    case Harvesting(h, l) =>
      (match l
       case Meal(f, _) => Harvesting(h, ToHarvest(f))
       case Nothing => if h != [] then Harvesting(h[..|h| - 1], Nothing) else Moving([])
       case _ => Harvesting(h, Nothing))
    case Moving(m) => Moving(m[..|m| - 1])
  }

  /** The stage reached once the top event of `st` is handled and its follow-ups `out`
      pushed: a batch's fan-out takes the batch's place, a growth leaves its FarmAdded, a
      harvest its meal or hunger check, a hunger check its death; any other event is only
      popped. */
  ghost function NextStage(st: Stage, out: seq<WE.WorldEvent>): Stage
    requires st != Moving([]) && Shaped(st)
  {
    match st
    case Cleared => Growing(out, None)
    case Growing(g, a) =>
      if a.Some? then Growing(g, None)
      else if g == [] then Harvesting(out, Nothing)
      else Growing(g[..|g| - 1], if out != [] && out[0].FarmAdded? then Some(out[0].coords) else None)
    case Harvesting(h, l) =>
      (match l
       case Nothing =>
         if h == [] then Moving(out)
         else
           var rest, vk := h[..|h| - 1], h[|h| - 1].key;
           if |out| == 2 && out[0].FarmHarvested? then Harvesting(rest, Meal(out[0].key, vk))
           else if out != [] then Harvesting(rest, Hunger(vk))
           else Harvesting(rest, Nothing)
       case Hunger(v) => if out != [] then Harvesting(h, Death(v)) else Harvesting(h, Nothing)
       case _ => Popped(st))
    case _ => Popped(st)
  }

  /** Popping the top event of a stage's stack leaves the stack of the popped stage. */
  lemma RenderSplit(st: Stage)
    requires st != Moving([])
    ensures Render(st) == Render(Popped(st)) + [Top(st)]
    ensures Render(st) != [] && Render(st)[|Render(st)| - 1] == Top(st)
    ensures Render(st)[..|Render(st)| - 1] == Render(Popped(st))
  {
    TopOfSnoc(Render(Popped(st)), Top(st));
    match st
    case Seeded =>
    case Cleared =>
    case Growing(g, a) => GrowingSplit(g, a);
    case Harvesting(h, l) => HarvestingSplit(h, l);
    case Moving(m) =>
      assert m == m[..|m| - 1] + [m[|m| - 1]];
  }

  lemma TopOfSnoc(r: seq<WE.WorldEvent>, e: WE.WorldEvent)
    ensures (r + [e])[|r + [e]| - 1] == e && (r + [e])[..|r + [e]| - 1] == r
  {
  }

  lemma GrowingSplit(g: seq<WE.WorldEvent>, a: Option<Coords>)
    ensures Render(Growing(g, a)) == Render(Popped(Growing(g, a))) + [Top(Growing(g, a))]
  {
    if a == None && g != [] {
      assert g == g[..|g| - 1] + [g[|g| - 1]];
    }
  }

  lemma HarvestingSplit(h: seq<WE.WorldEvent>, l: Leftover)
    ensures Render(Harvesting(h, l)) ==
            Render(Popped(Harvesting(h, l))) + [Top(Harvesting(h, l))]
  {
    if l == Nothing && h != [] {
      assert h == h[..|h| - 1] + [h[|h| - 1]];
    }
  }

  /** Pushing follow-ups: a FarmAdded above the growths, the events a harvest or a hunger
      check leaves above the harvests, and a batch's fan-out in place of the batch. */
  lemma RenderAdded(g: seq<WE.WorldEvent>, c: Coords)
    ensures Render(Growing(g, None)) + [WE.FarmAdded(c)] == Render(Growing(g, Some(c)))
  {
  }

  lemma RenderLeftover(h: seq<WE.WorldEvent>, l: Leftover)
    ensures Render(Harvesting(h, Nothing)) + LeftoverEvents(l) == Render(Harvesting(h, l))
  {
  }

  lemma RenderFanOut(s: seq<WE.WorldEvent>)
    ensures Render(Popped(Cleared)) + s == Render(Growing(s, None))
    ensures Render(Popped(Growing([], None))) + s == Render(Harvesting(s, Nothing))
    ensures Render(Popped(Harvesting([], Nothing))) + s == Render(Moving(s))
  {
  }

  /** A harvest's follow-ups, a meal or a hunger check or nothing, take its place on top of
      the remaining harvests. */
  lemma HarvestStep(st: Stage, produced: seq<WE.WorldEvent>, st': Stage)
    requires st.Harvesting? && st.leftover == Nothing && st.harvests != [] && Shaped(st)
    requires var h := st.harvests; var rest := h[..|h| - 1]; var vk := h[|h| - 1].key;
      || (produced == [] && st' == Harvesting(rest, Nothing))
      || (produced == [WE.VillagerHungered(vk)] && st' == Harvesting(rest, Hunger(vk)))
      || (exists f :: produced == [WE.FarmHarvested(f), WE.VillagerAte(vk)] &&
                      st' == Harvesting(rest, Meal(f, vk)))
    ensures Follows(st, st') && Shaped(st')
    ensures Render(Popped(st)) + produced == Render(st')
    ensures WE.BatchCount(produced) == 0 && WE.FineWeight(produced) < WE.Weight(Top(st))
  {
    var h := st.harvests;
    assert Shaped(Harvesting(h[..|h| - 1], Nothing));
    if |produced| == 2 {
      WE.PairRanks(produced[0], produced[1]);
    }
    RenderLeftover(h[..|h| - 1], st'.leftover);
  }

  /** A growth's follow-up, a FarmAdded or nothing, takes its place on top of the remaining
      growths. */
  lemma GrowthStep(st: Stage, produced: seq<WE.WorldEvent>, st': Stage)
    requires st.Growing? && st.added == None && st.growths != [] && Shaped(st)
    requires var g := st.growths; var rest := g[..|g| - 1];
      || (produced == [] && st' == Growing(rest, None))
      || (|produced| == 1 && produced[0].FarmAdded? &&
          st' == Growing(rest, Some(produced[0].coords)))
    ensures Follows(st, st') && Shaped(st')
    ensures Render(Popped(st)) + produced == Render(st')
    ensures WE.BatchCount(produced) == 0 && WE.FineWeight(produced) < WE.Weight(Top(st))
  {
    var g := st.growths;
    assert Shaped(Growing(g[..|g| - 1], None));
    if produced != [] {
      assert produced == [produced[0]];
      assert produced[..0] == [];
      RenderAdded(g[..|g| - 1], produced[0].coords);
    }
  }

  /** A hunger check's follow-up, a death or nothing, takes its place on top of the
      harvests. */
  lemma HungerStep(st: Stage, produced: seq<WE.WorldEvent>, st': Stage)
    requires st.Harvesting? && st.leftover.Hunger?
    requires var h := st.harvests; var v := st.leftover.villager;
      || (produced == [] && st' == Harvesting(h, Nothing))
      || (produced == [WE.VillagerDied(v)] && st' == Harvesting(h, Death(v)))
    requires Shaped(st)
    ensures Follows(st, st') && Shaped(st')
    ensures Render(Popped(st)) + produced == Render(st')
    ensures WE.BatchCount(produced) == 0 && WE.FineWeight(produced) < WE.Weight(Top(st))
  {
    if produced != [] {
      assert produced[..0] == [];
      RenderLeftover(st.harvests, Death(st.leftover.villager));
    }
  }

  /** A batch event's fan-out takes its place: the growths, the harvests or the moves. */
  lemma FanOutStep(st: Stage, produced: seq<WE.WorldEvent>, st': Stage)
    requires
      || (st == Cleared && st' == Growing(produced, None))
      || (st == Growing([], None) && st' == Harvesting(produced, Nothing))
      || (st == Harvesting([], Nothing) && st' == Moving(produced))
    requires Shaped(st')
    ensures Follows(st, st')
    ensures Render(Popped(st)) + produced == Render(st')
    ensures WE.BatchCount(produced) == 0
  {
    RenderFanOut(produced);
    forall i | 0 <= i < |produced|
      ensures !WE.IsBatch(produced[i])
    {
    }
    WE.NoBatches(produced);
  }

  /** No event occurs twice. */
  ghost predicate Distinct(s: seq<WE.WorldEvent>) {
    forall i, j :: 0 <= i < j < |s| ==> s[i] != s[j]
  }

  lemma DistinctInit(s: seq<WE.WorldEvent>)
    requires Distinct(s) && s != []
    ensures Distinct(s[..|s| - 1]) && s[|s| - 1] !in s[..|s| - 1]
  {
  }

  /** Popping alone, with nothing pushed, is a step of the cascade. */
  lemma PoppedFollows(st: Stage)
    requires st != Moving([]) && Shaped(st)
    ensures Follows(st, Popped(st)) && Shaped(Popped(st))
  {
  }

  /** The kind of the top event tells which stage the stack is in. */
  lemma TopInversion(st: Stage)
    requires st != Moving([]) && Shaped(st)
    ensures Top(st).GravesCleared? ==> st == Seeded
    ensures Top(st).FarmsCultivated? ==> st == Cleared
    ensures Top(st).FarmGrew? ==> st.Growing? && st.added.None? && st.growths != []
    ensures Top(st).FarmAdded? ==> st.Growing? && st.added.Some?
    ensures Top(st).VillagersFarmed? ==> st == Growing([], None)
    ensures Top(st).VillagerHarvested? ==>
      st.Harvesting? && st.leftover.Nothing? && st.harvests != []
    ensures Top(st).FarmHarvested? ==> st.Harvesting? && st.leftover.ToHarvest?
    ensures Top(st).VillagerAte? ==> st.Harvesting? && st.leftover.Meal?
    ensures Top(st).VillagerHungered? ==> st.Harvesting? && st.leftover.Hunger?
    ensures Top(st).VillagerDied? ==> st.Harvesting? && st.leftover.Death?
    ensures Top(st).VillagersMoved? ==> st == Harvesting([], Nothing)
    ensures Top(st).VillagerMoved? ==> st.Moving?
  {
  }

  /** The stages a step of the cascade may lead to. */
  ghost predicate Follows(st: Stage, st': Stage)
    requires st != Moving([])
  {
    match st
    case Seeded => st' == Cleared
    case Cleared => st'.Growing? && st'.added.None?
    case Growing(g, a) =>
      if a.Some? then st' == Growing(g, None)
      else if g != [] then st'.Growing? && st'.growths == g[..|g| - 1]
      else st'.Harvesting? && st'.leftover.Nothing?
    case Harvesting(h, l) =>
      (match l
       case Meal(f, _) => st' == Harvesting(h, ToHarvest(f))
       case Hunger(v) => st' == Harvesting(h, Nothing) || st' == Harvesting(h, Death(v))
       case Nothing =>
         if h != [] then
           st'.Harvesting? && st'.harvests == h[..|h| - 1] &&
           (st'.leftover.Nothing? || st'.leftover.Hunger? || st'.leftover.Meal?) &&
           (!st'.leftover.Nothing? ==> h[|h| - 1] == WE.VillagerHarvested(st'.leftover.villager))
         else st'.Moving?
       case _ => st' == Harvesting(h, Nothing))
    case Moving(m) => st' == Moving(m[..|m| - 1])
  }

  /** Every event of `t` is at most phase `p`. */
  ghost predicate PhasesAtMost(t: seq<WE.WorldEvent>, p: nat) {
    forall i :: 0 <= i < |t| ==> WE.Phase(t[i]) <= p
  }

  /** Each meal of the run so far directly follows its villager's harvest and, unless it is
      the last event, is directly followed by a farm's removal; a meal is last only while
      the farm's removal is still on top of the stack. */
  ghost predicate MealsSoFar(st: Stage, t: seq<WE.WorldEvent>) {
    && (forall i :: 0 <= i < |t| && t[i].VillagerAte? ==>
          0 < i && t[i - 1] == WE.VillagerHarvested(t[i].key) &&
          (i < |t| - 1 ==> t[i + 1].FarmHarvested?))
    && (t != [] && t[|t| - 1].VillagerAte? ==> st.Harvesting? && st.leftover.ToHarvest?)
  }

  /** The seeds that have run and the phases reached, for each stage. */
  ghost predicate SeedsSoFar(st: Stage, t: seq<WE.WorldEvent>) {
    match st
    case Seeded => t == []
    case Cleared => t == [WE.GravesCleared]
    case Growing(_, _) =>
      WE.Seeds(t) == [WE.GravesCleared, WE.FarmsCultivated] && PhasesAtMost(t, 2)
    case Harvesting(_, l) =>
      && WE.Seeds(t) == [WE.GravesCleared, WE.FarmsCultivated, WE.VillagersFarmed]
      && PhasesAtMost(t, 4)
      && (l.Meal? ==> t != [] && t[|t| - 1] == WE.VillagerHarvested(l.villager))
    case Moving(_) =>
      WE.Seeds(t) == [WE.GravesCleared, WE.FarmsCultivated, WE.VillagersFarmed, WE.VillagersMoved]
  }

  /** The events run so far, while the stack has stage `st`: their phases never go back, the
      seeds ran in order and each meal sits between its harvest and its farm's removal. */
  ghost predicate TraceOk(st: Stage, t: seq<WE.WorldEvent>) {
    WE.PhaseOrdered(t) && MealsSoFar(st, t) && SeedsSoFar(st, t)
  }

  lemma PhaseOrderedSnoc(t: seq<WE.WorldEvent>, e: WE.WorldEvent)
    requires WE.PhaseOrdered(t) && PhasesAtMost(t, WE.Phase(e))
    ensures WE.PhaseOrdered(t + [e])
  {
    var t' := t + [e];
    forall i, j | 0 <= i < j < |t'|
      ensures WE.Phase(t'[i]) <= WE.Phase(t'[j])
    {
      assert t'[i] == t[i];
      if j < |t| {
        assert t'[j] == t[j];
      }
    }
  }

  lemma PhasesAtMostSnoc(t: seq<WE.WorldEvent>, e: WE.WorldEvent, p: nat, q: nat)
    requires PhasesAtMost(t, p) && p <= q && WE.Phase(e) <= q
    ensures PhasesAtMost(t + [e], q)
  {
    var t' := t + [e];
    forall i | 0 <= i < |t'|
      ensures WE.Phase(t'[i]) <= q
    {
      if i < |t| {
        assert t'[i] == t[i];
      }
    }
  }

  /** The top event is never of a phase below what has run. */
  lemma TopPhase(st: Stage, t: seq<WE.WorldEvent>)
    requires st != Moving([]) && Shaped(st) && SeedsSoFar(st, t)
    ensures PhasesAtMost(t, WE.Phase(Top(st)))
  {
    match st
    case Seeded =>
    case Cleared =>
      assert t[0] == WE.GravesCleared;
    case Growing(g, a) =>
    case Harvesting(h, l) =>
    case Moving(m) =>
      var e := m[|m| - 1];
      assert e.VillagerMoved?;
      // Every event has phase at most 6, the phase of a single move.
      forall i | 0 <= i < |t|
        ensures WE.Phase(t[i]) <= WE.Phase(e)
      {
      }
  }

  lemma MealsStep(st: Stage, st': Stage, t: seq<WE.WorldEvent>)
    requires st != Moving([]) && Shaped(st) && MealsSoFar(st, t) && SeedsSoFar(st, t)
    requires Follows(st, st')
    ensures MealsSoFar(st', t + [Top(st)])
  {
    var e := Top(st);
    var t' := t + [e];
    forall i | 0 <= i < |t'| && t'[i].VillagerAte?
      ensures 0 < i && t'[i - 1] == WE.VillagerHarvested(t'[i].key)
      ensures i < |t'| - 1 ==> t'[i + 1].FarmHarvested?
    {
      if i < |t| {
        assert t'[i] == t[i];
        if 0 < i {
          assert t'[i - 1] == t[i - 1];
        }
        if i + 1 < |t| {
          assert t'[i + 1] == t[i + 1];
        }
      } else {
        assert st.Harvesting? && st.leftover.Meal?;
        assert t'[i - 1] == t[|t| - 1];
      }
    }
  }

  lemma SeedsStep(st: Stage, st': Stage, t: seq<WE.WorldEvent>)
    requires st != Moving([]) && Shaped(st) && SeedsSoFar(st, t) && Follows(st, st')
    ensures SeedsSoFar(st', t + [Top(st)])
  {
    var e := Top(st);
    WE.SeedsSnoc(t, e);
    match st
    case Seeded =>
    case Cleared => SeedsAfterCleared(t);
    case Growing(g, a) =>
      PhasesAtMostSnoc(t, e, 2, if st'.Growing? then 2 else 4);
    case Harvesting(h, l) =>
      if st'.Harvesting? {
        PhasesAtMostSnoc(t, e, 4, 4);
      }
    case Moving(m) =>
  }

  /** Once the graves are cleared, the farms' cultivation is the second seed to run. */
  lemma SeedsAfterCleared(t: seq<WE.WorldEvent>)
    requires t == [WE.GravesCleared]
    ensures WE.Seeds(t + [WE.FarmsCultivated]) == [WE.GravesCleared, WE.FarmsCultivated]
    ensures PhasesAtMost(t + [WE.FarmsCultivated], 2)
  {
    WE.SeedsSnoc([], WE.GravesCleared);
    assert [] + [WE.GravesCleared] == [WE.GravesCleared];
    WE.SeedsSnoc(t, WE.FarmsCultivated);
  }

  /** A step of the cascade runs the top event next and keeps the run well ordered. */
  lemma TraceStep(st: Stage, st': Stage, t: seq<WE.WorldEvent>)
    requires st != Moving([]) && Shaped(st) && TraceOk(st, t) && Follows(st, st')
    ensures TraceOk(st', t + [Top(st)])
  {
    TopPhase(st, t);
    PhaseOrderedSnoc(t, Top(st));
    MealsStep(st, st', t);
    SeedsStep(st, st', t);
  }

  /** Once the stack is empty, the run is complete: the seeds ran in the order
      GravesCleared, FarmsCultivated, VillagersFarmed, VillagersMoved, phases never went
      back, and every meal sits directly between its harvest and its farm's removal. */
  lemma Finished(t: seq<WE.WorldEvent>)
    requires TraceOk(Moving([]), t)
    ensures WE.PhaseOrdered(t) && WE.MealsInOrder(t)
    ensures WE.Seeds(t) ==
            [WE.GravesCleared, WE.FarmsCultivated, WE.VillagersFarmed, WE.VillagersMoved]
  {
    forall i | 0 <= i < |t| && t[i].VillagerAte?
      ensures 0 < i < |t| - 1 && t[i - 1] == WE.VillagerHarvested(t[i].key)
      ensures t[i + 1].FarmHarvested?
    {
    }
  }
}

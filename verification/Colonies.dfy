/** Slots and planet limits over whole runs. */
module Colonies {
  import opened Wrappers
  import opened Catalog
  import opened Sums
  import opened Formulas
  import opened World
  import Q = QueueSafety

  /** No two planets share a slot. */
  ghost predicate SlotsUnique(planets: seq<Option<Planet>>) {
    forall i, j :: 0 <= i < j < |planets| && planets[i].Some? && planets[j].Some?
      ==> planets[i].value.coord != planets[j].value.coord
  }

  function Limit(s: State, user: int): int { MaxPlanets(Level(s.TechsOf(user), Astrophysics)) }

  /** Every second level of Astrophysics, starting with the first, brings one more planet,
      and no level closes a position that was open. */
  lemma LimitsRise(n: nat, astro: int, higher: int, position: int)
    requires astro <= higher
    ensures MaxPlanets(2 * n) == n + 1 && MaxPlanets(2 * n + 1) == n + 2
    ensures MaxPlanets(astro) <= MaxPlanets(higher)
    ensures CanColonizePosition(astro, position) ==> CanColonizePosition(higher, position)
  {
  }

  /** Nobody owns more planets than Astrophysics allows. */
  ghost predicate WithinLimits(s: State) {
    forall user :: Sum(s.planets, OwnedBy(user)) <= Limit(s, user)
  }

  /** The same planets in the same places, whatever else about them has changed. */
  ghost predicate SamePlots(before: seq<Option<Planet>>, after: seq<Option<Planet>>) {
    |before| == |after| &&
    forall k :: 0 <= k < |before| ==>
      && before[k].Some? == after[k].Some?
      && (before[k].Some?
          ==> before[k].value.owner == after[k].value.owner && before[k].value.coord == after[k].value.coord)
  }

  predicate IsFounding(s: State, a: Step)
    requires a.Arrival? ==> s.HasFleet(a.fid)
  {
    a.Arrival? && s.FleetAt(a.fid).mission == Colonize && Founds(s, s.FleetAt(a.fid))
  }

  lemma DeliveryKeepsPlot(p: Planet, f: Fleet, now: real)
    ensures Credit(p, f.cargo, now).owner == p.owner && Credit(p, f.cargo, now).coord == p.coord
    ensures Merged(p, f, now).owner == p.owner && Merged(p, f, now).coord == p.coord
  {
    hide AddAll;
  }

  lemma AttackKeepsPlots(env: Env, s: State, fid: int, c: Clock)
    requires s.HasFleet(fid)
    ensures SamePlots(s.planets, ResolveAttack(env, s, fid, c).planets)
  {
    hide Refreshed, Battle, Spoils, Victorious, AddAll, HeadCount, ShipLosses, DefenseLosses;
    var f := s.FleetAt(fid);
    if !TargetGone(s, f) {
      var p := s.PlanetAt(f.targetPlanet.value);
      Q.RefreshKeepsEstate(env, p, s.TechsOf(p.owner), c.read);
    }
  }

  lemma ArrivalKeepsPlots(env: Env, s: State, a: Step)
    requires Enabled(s, a) && a.Arrival? && !IsFounding(s, a)
    ensures SamePlots(s.planets, Effect(env, s, a).planets)
  {
    hide Refreshed, ResolveAttack, Merged, Credit, TurnedBack, Founds, Colony;
    var f, c := s.FleetAt(a.fid), a.c;
    if f.mission == Attack {
      AttackKeepsPlots(env, s, a.fid, c);
    } else if !TargetGone(s, f) {
      var p := s.PlanetAt(f.targetPlanet.value);
      Q.RefreshKeepsEstate(env, p, s.TechsOf(p.owner), c.read);
      DeliveryKeepsPlot(RefreshedAt(env, s, f.targetPlanet.value, c.read), f, c.write);
    }
  }

  lemma PayingKeepsPlots(env: Env, s: State, pid: int, queue: seq<Item>, item: Item, c: Clock)
    requires s.HasPlanet(pid)
    ensures var t := Enqueue(s, pid, RefreshedAt(env, s, pid, c.read), queue, item, c.write);
            SamePlots(s.planets, t.planets) && t.techs == s.techs
  {
    hide Refreshed;
    Q.RefreshKeepsEstate(env, s.PlanetAt(pid), s.TechsOf(s.PlanetAt(pid).owner), c.read);
  }

  lemma CancelKeepsPlots(env: Env, s: State, user: int, qid: int, c: Clock)
    ensures var t := Cancel(env, s, user, qid, c).0;
            SamePlots(s.planets, t.planets) && t.techs == s.techs
  {
    hide Refreshed;
    if CancelError(s, user, qid).None? {
      var p := s.PlanetAt(s.queue[qid].planet);
      Q.RefreshKeepsEstate(env, p, s.TechsOf(p.owner), c.read);
    }
  }

  /** An accepted order pays on its planet; a refused one changes nothing. */
  ghost predicate PaysOrNothing(env: Env, s: State, t: State, pid: int, c: Clock) {
    t == s || (s.HasPlanet(pid)
               && exists queue, item :: t == Enqueue(s, pid, RefreshedAt(env, s, pid, c.read), queue, item, c.write))
  }

  lemma OrderPaysOrNothing(env: Env, s: State, a: Step)
    requires a.OrderBuilding? || a.OrderUnits? || a.OrderResearch?
    ensures PaysOrNothing(env, s, Effect(env, s, a), a.pid, a.c)
  {
    hide RefreshedAt, Enqueue, UpgradeCost, UpgradeItem, UpgradeError, OrderError, Repaired, PendingLevel, StartTime,
         BuildTime, ResearchTime, UnitCost, Meets, Sum, LabOf, BuildingPrerequisites, TechPrerequisites, UnitPrereqs;
  }

  lemma OrderKeepsPlots(env: Env, s: State, a: Step)
    requires a.OrderBuilding? || a.OrderUnits? || a.OrderResearch? || a.CancelOrder?
    ensures SamePlots(s.planets, Effect(env, s, a).planets) && Effect(env, s, a).techs == s.techs
  {
    hide Enqueue, Cancel, QueueBuilding, QueueUnits, QueueResearch;
    if a.CancelOrder? {
      CancelKeepsPlots(env, s, a.user, a.qid, a.c);
    } else {
      OrderPaysOrNothing(env, s, a);
      var t := Effect(env, s, a);
      if t != s {
        var queue, item :| t == Enqueue(s, a.pid, RefreshedAt(env, s, a.pid, a.c.read), queue, item, a.c.write);
        PayingKeepsPlots(env, s, a.pid, queue, item, a.c);
      }
    }
  }

  lemma ReturnKeepsPlots(env: Env, s: State, fid: int, c: Clock)
    requires s.HasFleet(fid)
    ensures SamePlots(s.planets, Return(env, s, fid, c).planets)
  {
    hide Refreshed, Merged;
    var f := s.FleetAt(fid);
    if s.HasPlanet(f.origin) {
      Q.RefreshKeepsEstate(env, s.PlanetAt(f.origin), s.TechsOf(s.PlanetAt(f.origin).owner), c.read);
      DeliveryKeepsPlot(RefreshedAt(env, s, f.origin, c.read), f, c.write);
    }
  }

  lemma SendKeepsPlots(env: Env, s: State, r: Request, c: Clock)
    ensures SamePlots(s.planets, Dispatch(env, s, r, c).0.planets)
  {
    hide Refreshed, AddAll, OriginError, RequestError, FuelFor, Launched;
    if s.HasPlanet(r.origin) {
      Q.RefreshKeepsEstate(env, s.PlanetAt(r.origin), s.TechsOf(s.PlanetAt(r.origin).owner), c.read);
    }
  }

  lemma OthersKeepPlots(env: Env, s: State, a: Step)
    requires Enabled(s, a) && !a.Arrival?
    ensures SamePlots(s.planets, Effect(env, s, a).planets)
  {
    hide Refreshed, Return, Dispatch, AddCount, NextOnPlanet, QueueBuilding, QueueUnits, QueueResearch, Cancel,
         Repaired;
    match a
    case LookAt(pid, c) =>
      if s.HasPlanet(pid) {
        Q.RefreshKeepsEstate(env, s.PlanetAt(pid), s.TechsOf(s.PlanetAt(pid).owner), c.read);
      }
    case Send(r, c) => SendKeepsPlots(env, s, r, c);
    case Homecoming(fid, c) => ReturnKeepsPlots(env, s, fid, c);
    case OrderBuilding(_, _, _, _) => OrderKeepsPlots(env, s, a);
    case OrderUnits(_, _, _, _, _) => OrderKeepsPlots(env, s, a);
    case OrderResearch(_, _, _, _) => OrderKeepsPlots(env, s, a);
    case CancelOrder(_, _, _) => OrderKeepsPlots(env, s, a);
    case _ =>
  }

  /** Astrophysics never falls, so neither does anybody's limit. */
  lemma LimitsGrow(env: Env, s: State, a: Step, user: int)
    requires Enabled(s, a)
    ensures Limit(s, user) <= Limit(Effect(env, s, a), user)
  {
    hide Effect, NextOnPlanet;
    if !Q.TouchesQueue(a) {
      Q.OthersKeepEstate(env, s, a);
    } else {
      QueueStepTechs(env, s, a, user);
    }
  }

  lemma QueueStepTechs(env: Env, s: State, a: Step, user: int)
    requires Enabled(s, a) && Q.TouchesQueue(a)
    ensures Level(s.TechsOf(user), Astrophysics) <= Level(Effect(env, s, a).TechsOf(user), Astrophysics)
  {
    hide QueueBuilding, QueueUnits, QueueResearch, Cancel, Repaired, AddCount, NextOnPlanet;
    if a.OrderBuilding? || a.OrderUnits? || a.OrderResearch? || a.CancelOrder? {
      OrderKeepsPlots(env, s, a);
    }
  }

  lemma {:induction false} SameOwners(before: seq<Option<Planet>>, after: seq<Option<Planet>>, user: int)
    requires SamePlots(before, after)
    ensures Sum(before, OwnedBy(user)) == Sum(after, OwnedBy(user))
  {
    if before != [] {
      SameOwners(before[..|before|-1], after[..|after|-1], user);
    }
  }

  /** The slot lookup finds a planet exactly when there is one. */
  lemma {:induction false} FoundIff(planets: seq<Option<Planet>>, c: Coord)
    ensures FindByCoord(planets, c).Some?
            <==> exists k :: 0 <= k < |planets| && planets[k].Some? && planets[k].value.coord == c
    ensures FindByCoord(planets, c).Some? ==>
              var k := FindByCoord(planets, c).value;
              0 <= k < |planets| && planets[k].Some? && planets[k].value.coord == c
  {
    if planets != [] {
      var n := |planets| - 1;
      FoundIff(planets[..n], c);
      if k :| 0 <= k < |planets| && planets[k].Some? && planets[k].value.coord == c {
        if k < n { assert planets[..n][k] == planets[k]; }
      }
    }
  }

  lemma FoundingKeepsOrder(env: Env, s: State, a: Step)
    requires Enabled(s, a) && IsFounding(s, a) && SlotsUnique(s.planets) && WithinLimits(s)
    ensures var t := Effect(env, s, a);
            t.planets == s.planets + [Some(Colony(s.FleetAt(a.fid), a.d, a.c.write))] && SlotsUnique(t.planets)
              && WithinLimits(t)
  {
    hide FindByCoord, Sum, AddAll;
    var f := s.FleetAt(a.fid);
    var t := Effect(env, s, a);
    var colony := Some(Colony(f, a.d, a.c.write));
    assert t.planets == s.planets + [colony] && t.techs == s.techs;
    FoundIff(s.planets, f.target);
    assert SlotsUnique(t.planets);
    forall user ensures Sum(t.planets, OwnedBy(user)) <= Limit(t, user) {
      SumAppend(s.planets, colony, OwnedBy(user));
    }
  }

  lemma StepKeepsOrder(env: Env, s: State, a: Step)
    requires SlotsUnique(s.planets) && WithinLimits(s) && Enabled(s, a)
    ensures var t := Next(env, s, a);
            SlotsUnique(t.planets) && WithinLimits(t)
  {
    hide Effect, Founds, Sum, Limit, NextOnPlanet;
    var t := Effect(env, s, a);
    if IsFounding(s, a) {
      FoundingKeepsOrder(env, s, a);
    } else {
      if a.Arrival? { ArrivalKeepsPlots(env, s, a); } else { OthersKeepPlots(env, s, a); }
      forall user ensures Sum(t.planets, OwnedBy(user)) <= Limit(t, user) {
        SameOwners(s.planets, t.planets, user);
        LimitsGrow(env, s, a, user);
      }
    }
    LimitIgnoresClock(t, a.c.write);
  }

  lemma LimitIgnoresClock(s: State, clock: real)
    ensures WithinLimits(s) ==> WithinLimits(s.(clock := clock))
  {
  }

  /** On every run, colonies are only founded on free slots and within the owner's limit. */
  lemma {:induction false} RunKeepsColonies(env: Env, s: State, run: seq<Step>)
    requires SlotsUnique(s.planets) && WithinLimits(s) && Legal(env, s, run)
    ensures var t := Final(env, s, run);
            SlotsUnique(t.planets) && WithinLimits(t)
    decreases |run|
  {
    hide Next, SlotsUnique, WithinLimits, Enabled;
    if run != [] {
      StepKeepsOrder(env, s, run[0]);
      RunKeepsColonies(env, Next(env, s, run[0]), run[1..]);
    }
  }
}

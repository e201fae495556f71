/** Who can change what: where each step writes, what it writes there, and by whose order. */
module Effects {
  import opened Wrappers
  import opened Catalog
  import opened Sums
  import opened Formulas
  import opened World
  import C = Combat
  import L = Ledger
  import S = Settlement

  // ---- authority ------------------------------------------------------------------------------

  /** The user behind a command owns what it is about; steps of the scheduler need no owner. */
  ghost predicate Owns(s: State, a: Step) {
    match a
    case Send(r, _) => s.HasPlanet(r.origin) && s.PlanetAt(r.origin).owner == r.user
    case BeginRecall(_, user, fid, _) => s.HasFleet(fid) && s.FleetAt(fid).owner == user
    case OrderBuilding(user, pid, _, _) => s.HasPlanet(pid) && s.PlanetAt(pid).owner == user
    case OrderUnits(user, pid, _, _, _) => s.HasPlanet(pid) && s.PlanetAt(pid).owner == user
    case OrderResearch(user, pid, _, _) => s.HasPlanet(pid) && s.PlanetAt(pid).owner == user
    case CancelOrder(user, qid, _) => 0 <= qid < |s.queue| && s.queue[qid].user == user
    case OpenQueue(user, pid, _) => s.HasPlanet(pid) && s.PlanetAt(pid).owner == user
    case _ => true
  }

  /** A command about something its user does not own changes nothing at all. */
  lemma OnlyOwnersCommand(env: Env, s: State, a: Step)
    requires Enabled(s, a) && !Owns(s, a)
    ensures Effect(env, s, a) == s
  {
    hide Refreshed, UpgradeCost, UpgradeItem, UpgradeError, OrderError, Repaired, PendingLevel, StartTime, BuildTime,
         ResearchTime, UnitCost, Meets, Sum, LabOf, RequestError, OriginError, LeftBehind, Launched, NextOnPlanet;
  }

  /** A fleet leaves if and only if all of this holds of the request and of the refreshed origin. */
  ghost predicate MayLeave(env: Env, s: State, r: Request, c: Clock) {
    && r.mission.Some? && 1 <= r.target.galaxy <= env.galaxies && 1 <= r.target.system <= env.systems
    && 1 <= r.target.position <= 15
    && (r.mission.value == Colonize ==> Level(r.ships, ColonyShip) >= 1)
    && (r.mission.value == Mission.Recycle ==> Level(r.ships, Recycler) >= 1)
    && (r.mission.value == Spy ==> Level(r.ships, EspionageProbe) >= 1)
    && (exists t :: Level(r.ships, t) > 0)
    && r.cargo.NonNegative() && (r.speedPercent <= 0 || 10 <= r.speedPercent <= 100)
    && s.HasPlanet(r.origin) && s.PlanetAt(r.origin).owner == r.user && s.PlanetAt(r.origin).coord != r.target
    && var p := RefreshedAt(env, s, r.origin, c.read);
    && (forall t :: Level(r.ships, t) > 0 ==> Level(p.ships, t) >= Level(r.ships, t))
    && r.cargo.Sum() <= CargoCapacity(Positive(r.ships))
    && p.pools.metal >= r.cargo.metal as real && p.pools.crystal >= r.cargo.crystal as real
    && p.pools.deuterium >= (r.cargo.deuterium + FuelFor(p, r)) as real
  }

  lemma SomeShip(r: Request)
    ensures Positive(r.ships) != map[] <==> exists t :: Level(r.ships, t) > 0
  {
    if t :| Level(r.ships, t) > 0 {
      assert t in Positive(r.ships);
    }
    if Positive(r.ships) != map[] {
      var t :| t in Positive(r.ships);
      assert Level(r.ships, t) > 0;
    }
  }

  lemma ShortIff(p: Planet, r: Request)
    ensures (exists t :: t in Positive(r.ships) && Level(p.ships, t) < Positive(r.ships)[t])
            <==> !(forall t :: Level(r.ships, t) > 0 ==> Level(p.ships, t) >= Level(r.ships, t))
  {
    if t :| Level(r.ships, t) > 0 && Level(p.ships, t) < Level(r.ships, t) {
      assert t in Positive(r.ships);
    }
  }

  lemma DispatchSucceedsIff(env: Env, s: State, r: Request, c: Clock)
    ensures Dispatch(env, s, r, c).1.Ok? <==> MayLeave(env, s, r, c)
  {
    hide Refreshed, FuelFor, CargoCapacity, LeftBehind, Launched;
    SomeShip(r);
    if s.HasPlanet(r.origin) {
      ShortIff(RefreshedAt(env, s, r.origin, c.read), r);
    }
  }

  // ---- place -----------------------------------------------------------------------------------

  /** The planet a step may write. */
  function Site(s: State, a: Step): Option<int>
    requires a.Arrival? || a.Homecoming? ==> s.HasFleet(a.fid)
  {
    match a
    case LookAt(pid, _) => Some(pid)
    case Send(r, _) => Some(r.origin)
    case Arrival(fid, _, _) => s.FleetAt(fid).targetPlanet
    case Homecoming(fid, _) => Some(s.FleetAt(fid).origin)
    case OrderBuilding(_, pid, _, _) => Some(pid)
    case OrderUnits(_, pid, _, _, _) => Some(pid)
    case OrderResearch(_, pid, _, _) => Some(pid)
    case CancelOrder(_, qid, _) => if 0 <= qid < |s.queue| then Some(s.queue[qid].planet) else None
    case Finish(qid, _) => if 0 <= qid < |s.queue| then Some(s.queue[qid].planet) else None
    case _ => None
  }

  lemma ArrivalLeavesOthers(env: Env, s: State, fid: int, d: Dice, c: Clock, pid: int)
    requires s.HasFleet(fid) && s.HasPlanet(pid) && s.FleetAt(fid).targetPlanet != Some(pid)
    ensures var t := Arrive(env, s, fid, d, c);
            t.HasPlanet(pid) && t.PlanetAt(pid) == s.PlanetAt(pid)
  {
    hide RefreshedAt, Battle, Spoils, Plundered, Victorious, Merged, Credit, Colony, Founds, TurnedBack;
  }

  lemma OrderLeavesOthers(env: Env, s: State, a: Step, pid: int)
    requires a.OrderBuilding? || a.OrderUnits? || a.OrderResearch? || a.CancelOrder?
    requires s.HasPlanet(pid) && Site(s, a) != Some(pid)
    ensures var t := Effect(env, s, a);
            t.HasPlanet(pid) && t.PlanetAt(pid) == s.PlanetAt(pid)
  {
    hide RefreshedAt, UpgradeCost, UpgradeItem, UpgradeError, OrderError, Repaired, PendingLevel, StartTime, BuildTime,
         ResearchTime, UnitCost, Meets, Sum, LabOf, Paid;
  }

  /** Whatever happens elsewhere, a planet stays exactly as it is. */
  lemma OthersUntouched(env: Env, s: State, a: Step, pid: int)
    requires Enabled(s, a) && s.HasPlanet(pid) && Site(s, a) != Some(pid)
    ensures var t := Next(env, s, a);
            t.HasPlanet(pid) && t.PlanetAt(pid) == s.PlanetAt(pid)
  {
    hide RefreshedAt, Arrive, Merged, AddCount, LeftBehind, Launched, OriginError, RequestError, Repaired, NextOnPlanet,
         QueueBuilding, QueueUnits, QueueResearch, Cancel;
    if a.Arrival? {
      ArrivalLeavesOthers(env, s, a.fid, a.d, a.c, pid);
    } else if a.OrderBuilding? || a.OrderUnits? || a.OrderResearch? || a.CancelOrder? {
      OrderLeavesOthers(env, s, a, pid);
    }
  }

  // ---- what arrives where -------------------------------------------------------------------------

  /** An attack takes from both sides what the battle says, and the loot from the planet. */
  lemma AttackStrikes(env: Env, s: State, a: Step)
    requires L.Sound(s) && Enabled(s, a) && a.Arrival? && L.Fights(s, s.FleetAt(a.fid))
    ensures var f, t := s.FleetAt(a.fid), Next(env, s, a);
            var pid := f.targetPlanet.value;
            var p, r := RefreshedAt(env, s, pid, a.c.read), L.BattleAt(env, s, f, a.c);
            var loot := Spoils(f, p, r);
            && t.HasPlanet(pid) && a.fid < |t.fleets| && t.PlanetAt(pid).pools == p.pools.Minus(Units(loot))
            && (forall x :: Level(t.PlanetAt(pid).ships, x)
                  == Level(p.ships, x) - Level(r.defenderShipsDestroyed, C.Hull(x)))
            && (forall x :: Level(t.PlanetAt(pid).defenses, x)
                  == Level(p.defenses, x) - Level(r.defenderDefensesDestroyed, C.Turret(x)))
            && (forall x :: L.FleetShips(t.fleets[a.fid], x)
                  == Level(f.ships, x) - Level(r.attackerDestroyed, C.Hull(x)))
            && (t.HasFleet(a.fid) ==> t.FleetAt(a.fid).cargo == PlusCost(f.cargo, loot))
  {
    hide Refreshed, Battle, Spoils, Plundered, Victorious, L.PlanetSound, L.FleetSound, NextOnPlanet;
    var f := s.FleetAt(a.fid);
    var p0 := s.PlanetAt(f.targetPlanet.value);
    L.RefreshBalances(env, p0, s.TechsOf(p0.owner), a.c.read);
    var p, r := RefreshedAt(env, s, f.targetPlanet.value, a.c.read), L.BattleAt(env, s, f, a.c);
    L.OnItsWay(s, a.fid, a.c.read);
    L.BattleResult(f, p, s.TechsOf(f.owner), s.TechsOf(p.owner), a.c.write);
    PlunderedPools(f, p, r, a.c.write);
  }

  lemma PlunderedPools(f: Fleet, p: Planet, r: C.CombatResult, now: real)
    ensures var loot := Spoils(f, p, r);
            && Plundered(f, p, r, loot, now).pools == p.pools.Minus(Units(loot))
            && (Victorious(f, r, loot, now).Some?
                ==> Victorious(f, r, loot, now).value.cargo == PlusCost(f.cargo, loot))
  {
    hide HeadCount, LootFor, AddAll, Survivors, CargoCapacity;
  }

  // ---- who takes ------------------------------------------------------------------------------------

  /** The owner's own spending, or the arrival of somebody's attack. */
  ghost predicate Takes(s: State, a: Step, pid: int)
    requires s.HasPlanet(pid) && (a.Arrival? ==> s.HasFleet(a.fid))
  {
    match a
    case Send(r, _) => r.origin == pid && r.user == s.PlanetAt(pid).owner
    case OrderBuilding(user, p, _, _) => p == pid && user == s.PlanetAt(pid).owner
    case OrderUnits(user, p, _, _, _) => p == pid && user == s.PlanetAt(pid).owner
    case OrderResearch(user, p, _, _) => p == pid && user == s.PlanetAt(pid).owner
    case Arrival(fid, _, _) => s.FleetAt(fid).mission == Attack && s.FleetAt(fid).targetPlanet == Some(pid)
    case _ => false
  }

  /** Untouched, or at least what production makes of it. */
  ghost predicate NoLess(env: Env, s: State, t: State, pid: int, now: real, k: L.Kind)
    requires s.HasPlanet(pid)
  {
    t.HasPlanet(pid) && (t.PlanetAt(pid).pools == s.PlanetAt(pid).pools
                         || L.Of(t.PlanetAt(pid).pools, k) >= L.Of(RefreshedAt(env, s, pid, now).pools, k))
  }

  lemma TransportGives(env: Env, s: State, fid: int, c: Clock, pid: int, k: L.Kind)
    requires L.Sound(s) && s.HasFleet(fid) && s.HasPlanet(pid) && s.FleetAt(fid).targetPlanet == Some(pid)
    ensures NoLess(env, s, ResolveTransport(env, s, fid, c), pid, c.read, k)
  {
    hide Refreshed, Credit, TurnedBack, L.PlanetSound, L.FleetSound;
    var p0, f := s.PlanetAt(pid), s.FleetAt(fid);
    L.RefreshBalances(env, p0, s.TechsOf(p0.owner), c.read);
    CargoIsNonNegative(s, fid);
    L.CreditAdds(RefreshedAt(env, s, pid, c.read), f.cargo, c.write);
  }

  lemma ArrivalGives(env: Env, s: State, fid: int, d: Dice, c: Clock, pid: int, k: L.Kind)
    requires L.Sound(s) && s.HasFleet(fid) && s.HasPlanet(pid) && s.FleetAt(fid).targetPlanet == Some(pid)
    requires s.FleetAt(fid).mission != Attack
    ensures NoLess(env, s, Arrive(env, s, fid, d, c), pid, c.read, k)
  {
    hide Refreshed, ResolveTransport, Merged, Colony, Founds, TurnedBack, L.PlanetSound, L.FleetSound;
    var p0, f := s.PlanetAt(pid), s.FleetAt(fid);
    if f.mission == Transport || (f.mission == Deploy && p0.owner != f.owner) {
      TransportGives(env, s, fid, c, pid, k);
    } else if f.mission == Deploy {
      L.RefreshBalances(env, p0, s.TechsOf(p0.owner), c.read);
      CargoIsNonNegative(s, fid);
      L.MergedCounts(RefreshedAt(env, s, pid, c.read), f, c.write);
    }
  }

  lemma OthersGive(env: Env, s: State, a: Step, pid: int, k: L.Kind)
    requires L.Sound(s) && Enabled(s, a) && s.HasPlanet(pid) && Site(s, a) == Some(pid)
             && (a.Homecoming? || a.CancelOrder?)
    ensures NoLess(env, s, Effect(env, s, a), pid, a.c.read, k)
  {
    hide Refreshed, Merged, Credit, NextOnPlanet, L.PlanetSound, L.FleetSound;
    var p0 := s.PlanetAt(pid);
    L.RefreshBalances(env, p0, s.TechsOf(p0.owner), a.c.read);
    if a.CancelOrder? {
      assert CancelError(s, a.user, a.qid).None? ==> s.queue[a.qid].cost.NonNegative();
    } else {
      CargoIsNonNegative(s, a.fid);
      L.MergedCounts(RefreshedAt(env, s, pid, a.c.read), s.FleetAt(a.fid), a.c.write);
    }
  }

  lemma CargoIsNonNegative(s: State, fid: int)
    requires L.Sound(s) && s.HasFleet(fid)
    ensures L.FleetSound(s.FleetAt(fid)) && s.FleetAt(fid).cargo.NonNegative()
  {
  }

  /** A planet's pools fall below both what they were and what production makes of them only
      when its owner spends or a fleet attacks it. */
  lemma OnlyOwnersAndAttackersTake(env: Env, s: State, a: Step, pid: int, k: L.Kind)
    requires L.Sound(s) && Enabled(s, a) && s.HasPlanet(pid) && !Takes(s, a, pid)
    ensures var t := Next(env, s, a);
            t.HasPlanet(pid) && (L.Of(t.PlanetAt(pid).pools, k) >= L.Of(s.PlanetAt(pid).pools, k)
                                 || L.Of(t.PlanetAt(pid).pools, k) >= L.Of(RefreshedAt(env, s, pid, a.c.read).pools, k))
  {
    hide Refreshed, Arrive, Return, Cancel, AddCount, Repaired, NextOnPlanet, L.Sound,
         Dispatch, QueueBuilding, QueueUnits, QueueResearch;
    if Site(s, a) != Some(pid) {
      OthersUntouched(env, s, a, pid);
    } else if a.Arrival? {
      ArrivalGives(env, s, a.fid, a.d, a.c, pid, k);
    } else if a.Homecoming? || a.CancelOrder? {
      OthersGive(env, s, a, pid, k);
    } else if !Owns(s, a) {
      OnlyOwnersCommand(env, s, a);
    }
  }

  // ---- holds ----------------------------------------------------------------------------------------

  /** Gone, or flagged and homeward for as long as it has been out. */
  ghost predicate TurnedAt(f: Fleet, t: State, fid: int, now: real) {
    t.HasFleet(fid) ==>
      var g := t.FleetAt(fid);
      && g.arrivalProcessed && g.status == Returning && g.returnAt == Some(TurnTime(f.departure, now))
      && g.departure == f.departure && g.origin == f.origin && g.owner == f.owner
      && g.returnProcessed == f.returnProcessed
      && g.target == f.target && g.targetPlanet == f.targetPlanet && g.mission == f.mission
  }

  lemma AttackerTurns(env: Env, s: State, fid: int, c: Clock)
    requires s.HasFleet(fid)
    ensures TurnedAt(s.FleetAt(fid), ResolveAttack(env, s, fid, c), fid, c.write)
  {
    hide RefreshedAt, Battle, Spoils, Plundered, HeadCount, Remains, TurnTime;
  }

  lemma DelivererTurns(env: Env, s: State, fid: int, c: Clock)
    requires s.HasFleet(fid)
    ensures TurnedAt(s.FleetAt(fid), ResolveTransport(env, s, fid, c), fid, c.write)
    ensures TurnedAt(s.FleetAt(fid), ResolveDeploy(env, s, fid, c), fid, c.write)
  {
    hide RefreshedAt, Merged, Credit, TurnTime;
  }

  /** A handled arrival is gone, or flagged and on its way home, due after as long as it has
      been out. */
  lemma ArrivedTurns(env: Env, s: State, fid: int, d: Dice, c: Clock)
    requires s.HasFleet(fid)
    ensures TurnedAt(s.FleetAt(fid), Arrive(env, s, fid, d, c), fid, c.write)
  {
    hide RefreshedAt, ResolveAttack, ResolveTransport, ResolveDeploy, Colony, Founds, Caught, TurnTime;
    AttackerTurns(env, s, fid, c);
    DelivererTurns(env, s, fid, c);
  }

  /** Every fleet on its way out carries no more than its ships can hold. */
  ghost predicate HoldsFit(s: State) {
    forall fid :: s.HasFleet(fid) && s.FleetAt(fid).status == Outbound ==>
      s.FleetAt(fid).cargo.Sum() <= CargoCapacity(s.FleetAt(fid).ships)
  }

  lemma LaunchedFits(env: Env, s: State, a: Step)
    requires Enabled(s, a) && a.Send?
    ensures var t := Next(env, s, a);
            t.fleets == s.fleets
            || (&& |t.fleets| == |s.fleets| + 1 && t.fleets[..|s.fleets|] == s.fleets && t.HasFleet(|s.fleets|)
                && var f := t.FleetAt(|s.fleets|); f.cargo.Sum() <= CargoCapacity(f.ships))
  {
    hide Refreshed, FuelFor, CargoCapacity, LeftBehind, NextOnPlanet;
  }

  lemma StepKeepsHolds(env: Env, s: State, a: Step)
    requires L.Sound(s) && HoldsFit(s) && Enabled(s, a)
    ensures HoldsFit(Next(env, s, a))
  {
    hide Effect, CargoCapacity, NextOnPlanet, L.Sound;
    var t := Next(env, s, a);
    S.StepWinds(env, s, a);
    forall fid | t.HasFleet(fid) && t.FleetAt(fid).status == Outbound
      ensures t.FleetAt(fid).cargo.Sum() <= CargoCapacity(t.FleetAt(fid).ships)
    {
      if a.Send? {
        LaunchedFits(env, s, a);
        if fid < |s.fleets| { assert s.HasFleet(fid) && t.FleetAt(fid) == s.FleetAt(fid); }
      } else {
        OutboundIsUntouched(env, s, a, fid);
      }
    }
  }

  /** A fleet that is still outbound after a step has not been written by it. */
  lemma OutboundIsUntouched(env: Env, s: State, a: Step, fid: int)
    requires L.Sound(s) && Enabled(s, a) && !a.Send? && Next(env, s, a).HasFleet(fid)
             && Next(env, s, a).FleetAt(fid).status == Outbound
    ensures s.HasFleet(fid) && s.FleetAt(fid) == Next(env, s, a).FleetAt(fid)
  {
    hide Effect, NextOnPlanet, L.Sound;
    S.StepWinds(env, s, a);
    var t := Next(env, s, a);
    if t.fleets != s.fleets && S.Rewrites(s, a) == Some(fid) {
      WrittenIsNotOutbound(env, s, a, fid);
    }
  }

  lemma WrittenIsNotOutbound(env: Env, s: State, a: Step, fid: int)
    requires Enabled(s, a) && s.HasFleet(fid) && S.Rewrites(s, a) == Some(fid)
    ensures var t := Effect(env, s, a);
            t.HasFleet(fid) ==> t.FleetAt(fid).status != Outbound
  {
    hide RefreshedAt, Arrive, Merged, NextOnPlanet;
    if a.Arrival? {
      ArrivedTurns(env, s, fid, a.d, a.c);
    }
  }

  lemma {:induction false} RunKeepsHolds(env: Env, s: State, run: seq<Step>)
    requires L.Sound(s) && HoldsFit(s) && Legal(env, s, run)
    ensures HoldsFit(Final(env, s, run))
    decreases |run|
  {
    hide Next, L.Sound, HoldsFit, Enabled;
    if run != [] {
      StepKeepsHolds(env, s, run[0]);
      L.NextBalances(env, s, run[0]);
      RunKeepsHolds(env, Next(env, s, run[0]), run[1..]);
    }
  }

  // ---- fuel ---------------------------------------------------------------------------------

  lemma BurnGrows(distance: int, farther: int, speedPercent: int, faster: int)
    requires 0 <= distance <= farther && 0 <= speedPercent <= faster
    ensures 0.0 <= Burn(distance, speedPercent) <= Burn(farther, faster)
  {
    var x, y := 1.0 + speedPercent as real / 100.0, 1.0 + faster as real / 100.0;
    ScaledMonotone(x, x, y);
    ScaledMonotone(y, x, y);
    assert x * x <= y * y;
    var d, e := distance as real / 35000.0, farther as real / 35000.0;
    ScaledMonotone(d, x * x, y * y);
    ScaledMonotone(y * y, d, e);
    assert d * (x * x) >= 0.0;
  }

  /** Flying farther or faster never saves fuel. */
  lemma FuelGrows(ships: map<ShipType, int>, distance: int, farther: int, speedPercent: int, faster: int)
    requires 0 <= distance <= farther && 0 <= speedPercent <= faster
    ensures Fuel(ships, distance, speedPercent) <= Fuel(ships, farther, faster)
  {
    hide Burn, FuelIn;
    BurnGrows(distance, farther, speedPercent, faster);
    FuelInNonNegative(ships);
    SumKeysNonNegative(ships.Keys, FuelIn(ships));
    ScaledMonotone(SumKeys(ships.Keys, FuelIn(ships)) as real, Burn(distance, speedPercent), Burn(farther, faster));
  }

  lemma FuelInNonNegative(ships: map<ShipType, int>)
    ensures forall t :: t in ships.Keys ==> FuelIn(ships)(t) >= 0
  {
    hide ShipStats;
    forall t | t in ships.Keys ensures FuelIn(ships)(t) >= 0 {
      if ships[t] > 0 {
        C.MulMonotone(0, ShipStats(t).fuel, ships[t]);
      }
    }
  }

  /** Ships of one type burn their table consumption each, scaled by distance and speed. */
  lemma FuelOfOneType(t: ShipType, n: int, distance: int, speedPercent: int)
    requires n > 0
    ensures Fuel(map[t := n], distance, speedPercent)
            == Max(1, ((ShipStats(t).fuel * n) as real * Burn(distance, speedPercent)).Floor)
  {
    hide Burn, ShipStats;
    var m := map[t := n];
    assert m.Keys == {t};
    SumKeysTake(m.Keys, t, FuelIn(m));
    assert m.Keys - {t} == {};
  }
}

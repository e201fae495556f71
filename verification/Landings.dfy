/** What a fleet leaves where it lands, and what it keeps: deliveries, mergers, colonies and
    homecomings, planet by planet and row by row. */
module Landings {
  import opened Wrappers
  import opened Catalog
  import opened Sums
  import opened Formulas
  import opened World
  import E = Effects
  import K = Colonies
  import L = Ledger

  predicate Lands(s: State, a: Step, m: Mission) {
    a.Arrival? && s.HasFleet(a.fid) && s.FleetAt(a.fid).mission == m
  }

  /** A planet in the world that the fleet was sent to. */
  predicate OverPlanet(s: State, f: Fleet, pid: int) { f.targetPlanet == Some(pid) && s.HasPlanet(pid) }

  /** Everything but this planet, this fleet and the time is as it was. */
  ghost predicate OnlyThere(s: State, t: State, pid: int, fid: int, c: Clock)
    requires s.HasPlanet(pid) && s.HasFleet(fid)
  {
    && t.HasPlanet(pid) && fid < |t.fleets|
    && t == s.(planets := s.planets[pid := t.planets[pid]], fleets := s.fleets[fid := t.fleets[fid]], clock := c.write)
  }

  /** The refreshed planet with the cargo, and with the ships if they stay; nothing else of it changes. */
  ghost predicate Receives(p: Planet, q: Planet, cargo: Cost, ships: map<ShipType, int>, now: real) {
    && q.pools == Res(p.pools.metal + cargo.metal as real, p.pools.crystal + cargo.crystal as real,
                      p.pools.deuterium + cargo.deuterium as real)
    && (forall x :: Level(q.ships, x) == Level(p.ships, x) + Level(ships, x))
    && q == p.(pools := q.pools, ships := q.ships, cursor := if cargo == Cost(0, 0, 0) then p.cursor else now)
  }

  /** The fleet is on its way home with the same ships and this cargo. */
  ghost predicate FliesHome(f: Fleet, t: State, fid: int, cargo: Cost, now: real) {
    && t.HasFleet(fid) && E.TurnedAt(f, t, fid, now) && t.FleetAt(fid).ships == f.ships
    && t.FleetAt(fid).cargo == cargo && t.FleetAt(fid).fuel == f.fuel
  }

  lemma CreditReceives(p: Planet, cargo: Cost, now: real)
    requires cargo.NonNegative()
    ensures Receives(p, Credit(p, cargo, now), cargo, map[], now)
  {
  }

  lemma MergerReceives(p: Planet, f: Fleet, now: real)
    requires L.PlanetSound(p) && L.FleetSound(f)
    ensures Receives(p, Merged(p, f, now), f.cargo, f.ships, now)
  {
    hide AddAll, L.PlanetSound, L.FleetSound;
    L.MergedCounts(p, f, now);
    MergedPools(p, f, now);
  }

  lemma MergedPools(p: Planet, f: Fleet, now: real)
    requires L.FleetSound(f)
    ensures var q := Merged(p, f, now);
            && q.pools == Res(p.pools.metal + f.cargo.metal as real, p.pools.crystal + f.cargo.crystal as real,
                              p.pools.deuterium + f.cargo.deuterium as real)
            && q == p.(pools := q.pools, ships := q.ships, cursor := if f.cargo == Cost(0, 0, 0) then p.cursor else now)
  {
    hide AddAll;
  }

  lemma SoundRows(env: Env, s: State, pid: int, fid: int, now: real)
    requires L.Sound(s) && s.HasPlanet(pid) && s.HasFleet(fid)
    ensures L.PlanetSound(RefreshedAt(env, s, pid, now)) && L.FleetSound(s.FleetAt(fid))
    ensures s.FleetAt(fid).cargo.NonNegative()
  {
    hide Refreshed;
    L.RefreshBalances(env, s.PlanetAt(pid), s.TechsOf(s.PlanetAt(pid).owner), now);
  }

  /** A transport, or a deployment to somebody else's planet, unloads its cargo there and flies home
      empty with all its ships. */
  lemma TransportOutcome(env: Env, s: State, a: Step, pid: int)
    requires L.Sound(s) && Enabled(s, a) && a.Arrival? && OverPlanet(s, s.FleetAt(a.fid), pid)
    requires Lands(s, a, Transport) || (Lands(s, a, Deploy) && s.PlanetAt(pid).owner != s.FleetAt(a.fid).owner)
    ensures var f, t := s.FleetAt(a.fid), Next(env, s, a);
            && OnlyThere(s, t, pid, a.fid, a.c)
            && Receives(RefreshedAt(env, s, pid, a.c.read), t.PlanetAt(pid), f.cargo, map[], a.c.write)
            && FliesHome(f, t, a.fid, Cost(0, 0, 0), a.c.write)
  {
    hide Refreshed, Credit, Receives, L.PlanetSound, NextOnPlanet, TurnTime;
    SoundRows(env, s, pid, a.fid, a.c.read);
    CreditReceives(RefreshedAt(env, s, pid, a.c.read), s.FleetAt(a.fid).cargo, a.c.write);
  }

  /** A deployment to a planet of one's own leaves ships and cargo there, and the fleet is gone. */
  lemma DeployOutcome(env: Env, s: State, a: Step, pid: int)
    requires L.Sound(s) && Enabled(s, a) && Lands(s, a, Deploy) && OverPlanet(s, s.FleetAt(a.fid), pid)
    requires s.PlanetAt(pid).owner == s.FleetAt(a.fid).owner
    ensures var f, t := s.FleetAt(a.fid), Next(env, s, a);
            && OnlyThere(s, t, pid, a.fid, a.c) && !t.HasFleet(a.fid)
            && Receives(RefreshedAt(env, s, pid, a.c.read), t.PlanetAt(pid), f.cargo, f.ships, a.c.write)
  {
    hide Refreshed, Merged, Receives, L.PlanetSound, L.FleetSound, NextOnPlanet, L.Sound;
    SoundRows(env, s, pid, a.fid, a.c.read);
    MergerReceives(RefreshedAt(env, s, pid, a.c.read), s.FleetAt(a.fid), a.c.write);
  }

  /** Back at its origin a fleet unloads ships and cargo, and its row only records that it is back;
      without an origin the fleet is lost. */
  lemma HomecomingOutcome(env: Env, s: State, a: Step)
    requires L.Sound(s) && Enabled(s, a) && a.Homecoming?
    ensures var f, t := s.FleetAt(a.fid), Next(env, s, a);
            if s.HasPlanet(f.origin) then
              && OnlyThere(s, t, f.origin, a.fid, a.c)
              && t.fleets[a.fid] == Some(f.(status := Returned, returnProcessed := true))
              && Receives(RefreshedAt(env, s, f.origin, a.c.read), t.PlanetAt(f.origin), f.cargo, f.ships, a.c.write)
            else t == s.(fleets := s.fleets[a.fid := None], clock := a.c.write)
  {
    hide Refreshed, Merged, Receives, L.PlanetSound, L.FleetSound, NextOnPlanet, L.Sound;
    var origin := s.FleetAt(a.fid).origin;
    if s.HasPlanet(origin) {
      SoundRows(env, s, origin, a.fid, a.c.read);
      MergerReceives(RefreshedAt(env, s, origin, a.c.read), s.FleetAt(a.fid), a.c.write);
    }
  }

  /** With nobody there to visit, and on every recycling mission, a fleet turns around as it is. */
  lemma BounceOutcome(env: Env, s: State, a: Step)
    requires Enabled(s, a) && a.Arrival? && !Lands(s, a, Colonize)
    requires Lands(s, a, Mission.Recycle) || forall pid :: !OverPlanet(s, s.FleetAt(a.fid), pid)
    ensures var f, t := s.FleetAt(a.fid), Next(env, s, a);
            && FliesHome(f, t, a.fid, f.cargo, a.c.write)
            && t == s.(fleets := s.fleets[a.fid := t.fleets[a.fid]], clock := a.c.write)
  {
    hide RefreshedAt, Battle, Merged, Credit, NextOnPlanet, TurnTime;
    var f := s.FleetAt(a.fid);
    assert f.mission != Mission.Recycle ==> TargetGone(s, f) by {
      if f.targetPlanet.Some? { assert f.mission == Mission.Recycle || !OverPlanet(s, f, f.targetPlanet.value); }
    }
  }

  // ---- colonies ---------------------------------------------------------------------------------------

  function PlanetsOf(s: State, user: int): set<int> {
    set k | 0 <= k < |s.planets| && s.planets[k].Some? && s.planets[k].value.owner == user
  }

  /** How far from the middle slot an account may settle: four slots, and one more for every second
      level from the fourth to the eighth. */
  function Reach(astro: int): int { 4 + if astro < 4 then 0 else if astro >= 8 then 3 else astro / 2 - 1 }

  /** The slot is free and within reach, and the account's further planets are fewer than half its
      level of Astrophysics. */
  ghost predicate MaySettle(s: State, f: Fleet) {
    var astro := Level(s.TechsOf(f.owner), Astrophysics);
    && (forall k :: s.HasPlanet(k) ==> s.PlanetAt(k).coord != f.target)
    && -Reach(astro) <= f.target.position - 8 <= Reach(astro)
    && 2 * (|PlanetsOf(s, f.owner)| - 1) < Max(0, astro)
  }

  /** A bare planet of the fleet's owner in the target slot, with the cargo and all ships but one
      colony ship. */
  ghost predicate IsColony(f: Fleet, d: Dice, q: Planet, now: real) {
    && q.owner == f.owner && q.coord == f.target && q.cursor == now
    && q.pools == Res(f.cargo.metal as real, f.cargo.crystal as real, f.cargo.deuterium as real)
    && (forall x :: Level(q.ships, x) == Level(f.ships, x) - if x == ColonyShip then 1 else 0)
    && (forall x :: Level(q.defenses, x) == 0) && (forall x :: Level(q.buildings, x) == 0)
    && q.fieldsUsed == 0 && q.fieldsTotal == d.fieldsTotal && q.tempMin == d.tempMin && q.tempMax == d.tempMax
  }

  lemma OwnedAre(s: State, user: int)
    ensures Sum(s.planets, OwnedBy(user)) == |PlanetsOf(s, user)|
  {
    SumCounts(s.planets, OwnedBy(user), PlanetsOf(s, user));
  }

  lemma ReachIs(astro: int, position: int)
    ensures CanColonizePosition(astro, position) <==> -Reach(astro) <= position - 8 <= Reach(astro)
  {
  }

  lemma SettlesIff(s: State, f: Fleet)
    ensures Founds(s, f) <==> MaySettle(s, f)
  {
    hide FindByCoord, PlanetsOf, Sum, CanColonizePosition, Reach;
    K.FoundIff(s.planets, f.target);
    OwnedAre(s, f.owner);
    ReachIs(Level(s.TechsOf(f.owner), Astrophysics), f.target.position);
    SlotTaken(s, f.target);
  }

  lemma SlotTaken(s: State, c: Coord)
    ensures (exists k :: 0 <= k < |s.planets| && s.planets[k].Some? && s.planets[k].value.coord == c)
            <==> !(forall k :: s.HasPlanet(k) ==> s.PlanetAt(k).coord != c)
  {
    if k :| 0 <= k < |s.planets| && s.planets[k].Some? && s.planets[k].value.coord == c {
      assert s.HasPlanet(k) && s.PlanetAt(k).coord == c;
    }
    if !(forall k :: s.HasPlanet(k) ==> s.PlanetAt(k).coord != c) {
      var k :| s.HasPlanet(k) && s.PlanetAt(k).coord == c;
      assert s.planets[k].Some? && s.planets[k].value.coord == c;
    }
  }

  lemma ColonyIs(f: Fleet, d: Dice, now: real)
    requires L.FleetSound(f) && Level(f.ships, ColonyShip) >= 1
    ensures IsColony(f, d, Colony(f, d, now), now)
  {
    hide L.FleetSound, AddAll;
    L.ColonyCounts(f, d, now);
  }

  /** A colonizing fleet founds its colony if and only if it may, and is then gone; otherwise it turns
      around as it is.  Nothing else changes. */
  lemma ColonizeOutcome(env: Env, s: State, a: Step)
    requires L.Sound(s) && Enabled(s, a) && Lands(s, a, Colonize)
    ensures var f, t := s.FleetAt(a.fid), Next(env, s, a);
            if MaySettle(s, f) then
              && t.HasPlanet(|s.planets|) && IsColony(f, a.d, t.PlanetAt(|s.planets|), a.c.write)
              && t == s.(planets := s.planets + [t.planets[|s.planets|]], fleets := s.fleets[a.fid := None],
                         clock := a.c.write)
            else
              FliesHome(f, t, a.fid, f.cargo, a.c.write)
              && t == s.(fleets := s.fleets[a.fid := t.fleets[a.fid]], clock := a.c.write)
  {
    hide Founds, MaySettle, Colony, IsColony, L.FleetSound, L.PlanetSound, NextOnPlanet, TurnTime;
    var f := s.FleetAt(a.fid);
    SettlesIff(s, f);
    CarriesColonyShip(s, a);
    ColonyIs(f, a.d, a.c.write);
  }

  lemma CarriesColonyShip(s: State, a: Step)
    requires L.Sound(s) && Enabled(s, a) && Lands(s, a, Colonize)
    ensures L.FleetSound(s.FleetAt(a.fid)) && Level(s.FleetAt(a.fid).ships, ColonyShip) >= 1
  {
    hide NextOnPlanet;
  }

  // ---- recalls ----------------------------------------------------------------------------------------

  /** A recall is taken down exactly when the fleet is the user's own and still on its way out: to
      be back after as long as it has been gone. */
  lemma RecallOutcome(env: Env, s: State, a: Step)
    requires Enabled(s, a) && a.BeginRecall?
    ensures Next(env, s, a) ==
            if s.HasFleet(a.fid) && s.FleetAt(a.fid).owner == a.user && s.FleetAt(a.fid).status == Outbound
            then s.(recalls := s.recalls[a.call := Recall(a.fid, TurnTime(s.FleetAt(a.fid).departure, a.c.read))],
                    clock := a.c.write)
            else s.(clock := a.c.write)
  {
  }
}

/** What a dispatch puts into the air: the row of the fleet, field by field, and where it is aimed
    for as long as it lives. */
module Launches {
  import opened Wrappers
  import opened Catalog
  import opened Sums
  import opened Formulas
  import opened World
  import E = Effects
  import F = Flight
  import K = Colonies
  import L = Ledger
  import Recalls
  import S = Settlement

  // ---- what ships carry and burn -------------------------------------------------------------------

  lemma {:induction false} SameTerms(keys: set<ShipType>, f: ShipType -> int, g: ShipType -> int)
    requires forall t :: t in keys ==> f(t) == g(t)
    ensures SumKeys(keys, f) == SumKeys(keys, g)
    decreases keys
  {
    if keys != {} {
      var t :| t in keys && SumKeys(keys, f) == f(t) + SumKeys(keys - {t}, f);
      SumKeysTake(keys, t, g);
      SameTerms(keys - {t}, f, g);
    }
  }

  lemma TermAdds(keys: set<ShipType>, t: ShipType, f: ShipType -> int, g: ShipType -> int)
    requires t !in keys && forall k :: k in keys ==> f(k) == g(k)
    ensures SumKeys(keys + {t}, g) == SumKeys(keys, f) + g(t)
  {
    SumKeysAdd(keys, t, g);
    SameTerms(keys, f, g);
  }

  lemma OneMore(ships: map<ShipType, int>, t: ShipType, n: int, k: ShipType)
    requires k != t
    ensures CargoIn(ships[t := n])(k) == CargoIn(ships)(k) && FuelIn(ships[t := n])(k) == FuelIn(ships)(k)
  {
    hide ShipStats;
    assert Level(ships[t := n], k) == Level(ships, k);
  }

  lemma OwnTerm(ships: map<ShipType, int>, t: ShipType, n: int)
    ensures CargoIn(ships[t := n])(t) == ShipStats(t).cargo * Max(0, n)
    ensures FuelIn(ships[t := n])(t) == ShipStats(t).fuel * Max(0, n)
  {
    hide ShipStats;
    assert Level(ships[t := n], t) == n;
  }

  /** Ship by ship: an empty fleet holds nothing, and more of a type hold its table cargo each. */
  lemma HoldsAdd(ships: map<ShipType, int>, t: ShipType, n: int)
    requires t !in ships
    ensures CargoCapacity(map[]) == 0
    ensures CargoCapacity(ships[t := n]) == CargoCapacity(ships) + ShipStats(t).cargo * Max(0, n)
  {
    hide ShipStats, CargoIn, FuelIn;
    assert ships[t := n].Keys == ships.Keys + {t};
    forall k | k in ships.Keys ensures CargoIn(ships)(k) == CargoIn(ships[t := n])(k) {
      OneMore(ships, t, n, k);
    }
    TermAdds(ships.Keys, t, CargoIn(ships), CargoIn(ships[t := n]));
    OwnTerm(ships, t, n);
  }

  /** What all ships together burn per unit of the way. */
  ghost function Thirst(ships: map<ShipType, int>): int { SumKeys(ships.Keys, FuelIn(ships)) }

  lemma ThirstAdds(ships: map<ShipType, int>, t: ShipType, n: int)
    requires t !in ships
    ensures Thirst(map[]) == 0 && Thirst(ships[t := n]) == Thirst(ships) + ShipStats(t).fuel * Max(0, n)
  {
    hide ShipStats, CargoIn, FuelIn;
    assert ships[t := n].Keys == ships.Keys + {t};
    forall k | k in ships.Keys ensures FuelIn(ships)(k) == FuelIn(ships[t := n])(k) {
      OneMore(ships, t, n, k);
    }
    TermAdds(ships.Keys, t, FuelIn(ships), FuelIn(ships[t := n]));
    OwnTerm(ships, t, n);
  }

  // ---- distances -----------------------------------------------------------------------------------

  /** The same both ways; one slot, system or galaxy further adds its fixed step, and a nearer
      coordinate does not matter once a farther one differs. */
  lemma DistanceLaws(a: Coord, b: Coord)
    ensures Distance(a, b) == Distance(b, a) && Distance(a, a) == 5
    ensures a.galaxy != b.galaxy && a.galaxy <= b.galaxy ==>
              Distance(a, b.(galaxy := b.galaxy + 1)) == Distance(a, b) + 20000
    ensures a.galaxy != b.galaxy ==> forall x, y :: Distance(a, b) == Distance(a, Coord(b.galaxy, x, y))
    ensures a.galaxy == b.galaxy && a.system < b.system ==>
              Distance(a, b.(system := b.system + 1)) == Distance(a, b) + 95
    ensures a.galaxy == b.galaxy && a.system != b.system ==>
              forall y :: Distance(a, b) == Distance(a, b.(position := y))
    ensures a.galaxy == b.galaxy && a.system == b.system && a.position < b.position ==>
              Distance(a, b.(position := b.position + 1)) == Distance(a, b) + 5
    ensures Distance(a, a.(position := a.position + 1)) == 1005
    ensures Distance(a, a.(system := a.system + 1)) == 2795 && Distance(a, a.(galaxy := a.galaxy + 1)) == 20000
  {
  }

  // ---- the row of a dispatch ---------------------------------------------------------------------------

  /** Full throttle unless one is asked for. */
  function Throttle(r: Request): int { if r.speedPercent <= 0 then 100 else r.speedPercent }

  /** One unit of thirst burns the way, in parts of 35000, times the square of one plus the throttle. */
  function UnitBill(distance: int, percent: int): real {
    (distance as real / 35000.0) * ((1.0 + percent as real / 100.0) * (1.0 + percent as real / 100.0))
  }

  ghost function FuelBill(ships: map<ShipType, int>, distance: int, percent: int): int {
    Max(1, (Thirst(ships) as real * UnitBill(distance, percent)).Floor)
  }

  /** A row with what was asked for, aimed at whoever is in the requested slot, and due after the
      flight of the slowest hull. */
  ghost predicate IsRowOf(env: Env, s: State, r: Request, c: Clock, f: Fleet)
    requires s.HasPlanet(r.origin)
  {
    var way := Distance(s.PlanetAt(r.origin).coord, r.target);
    && f.owner == r.user && f.origin == r.origin && Some(f.mission) == r.mission && f.status == Outbound
    && f.target == r.target && f.cargo == r.cargo && f.departure == c.write && f.returnAt == None
    && !f.arrivalProcessed && !f.returnProcessed
    && (forall t :: Level(f.ships, t) == Max(0, Level(r.ships, t)))
    && (exists v :: F.IsSlowest(v, r.ships, s.TechsOf(r.user))
                    && f.arrivalAt == c.write + env.flight(way, v, Throttle(r)) as real)
    && f.fuel == FuelBill(f.ships, way, Throttle(r))
    && (forall k :: f.targetPlanet == Some(k) <==> s.HasPlanet(k) && s.PlanetAt(k).coord == r.target)
    && (f.targetPlanet == None <==> forall k :: s.HasPlanet(k) ==> s.PlanetAt(k).coord != r.target)
  }

  /** The origin pays cargo and fuel, and loses the ships. */
  ghost predicate IsOriginAfter(env: Env, s: State, r: Request, c: Clock, f: Fleet, q: Planet)
    requires s.HasPlanet(r.origin)
  {
    var p := RefreshedAt(env, s, r.origin, c.read);
    && q.pools == Res(p.pools.metal - r.cargo.metal as real, p.pools.crystal - r.cargo.crystal as real,
                      p.pools.deuterium - r.cargo.deuterium as real - f.fuel as real)
    && (forall t :: Level(q.ships, t) == Level(p.ships, t) - Max(0, Level(r.ships, t)))
    && q == p.(pools := q.pools, ships := q.ships, cursor := c.write)
  }

  lemma SlowestOfPositive(ships: map<ShipType, int>, techs: Techs)
    ensures F.IsSlowest(F.SlowestSpeed(Positive(ships), techs), ships, techs)
  {
    hide F.ShipSpeed;
    assert forall t :: Level(ships, t) > 0 <==> Level(Positive(ships), t) > 0;
  }

  lemma FuelIs(ships: map<ShipType, int>, distance: int, percent: int)
    ensures Fuel(ships, distance, percent) == FuelBill(ships, distance, percent)
  {
    hide FuelIn, Burn, UnitBill;
    UnitBillIs(distance, percent);
    ScaledIs(Thirst(ships), Burn(distance, percent));
  }

  lemma UnitBillIs(distance: int, percent: int)
    ensures Burn(distance, percent) == UnitBill(distance, percent)
  {
  }

  lemma ScaledIs(n: int, x: real)
    ensures Scaled(n, x) == n as real * x
  {
  }

  lemma PositiveCounts(ships: map<ShipType, int>)
    ensures forall t :: Level(Positive(ships), t) == Max(0, Level(ships, t))
  {
  }

  lemma LaunchedRow(env: Env, s: State, r: Request, c: Clock, p: Planet)
    requires K.SlotsUnique(s.planets) && s.HasPlanet(r.origin) && r.mission.Some?
    requires p.coord == s.PlanetAt(r.origin).coord
    ensures IsRowOf(env, s, r, c, Launched(env, s, r, p, c.write))
  {
    hide F.SlowestSpeed, F.IsSlowest, FindByCoord, Distance, Fuel, FuelBill, Positive;
    SlowestOfPositive(r.ships, s.TechsOf(r.user));
    PositiveCounts(r.ships);
    FuelIs(Positive(r.ships), Distance(p.coord, r.target), SpeedOf(r));
    K.FoundIff(s.planets, r.target);
    var f := Launched(env, s, r, p, c.write);
    var v := F.SlowestSpeed(Positive(r.ships), s.TechsOf(r.user));
    assert f.arrivalAt == c.write + env.flight(Distance(p.coord, r.target), v, Throttle(r)) as real;
    forall k ensures f.targetPlanet == Some(k) <==> s.HasPlanet(k) && s.PlanetAt(k).coord == r.target {
    }
  }

  lemma OriginPays(env: Env, s: State, r: Request, c: Clock)
    requires L.Sound(s) && Dispatch(env, s, r, c).1.Ok?
    ensures s.HasPlanet(r.origin) && r.mission.Some?
    ensures var p := RefreshedAt(env, s, r.origin, c.read);
            IsOriginAfter(env, s, r, c, Launched(env, s, r, p, c.write), LeftBehind(p, r, c.write))
  {
    hide Refreshed, CargoCapacity, FuelFor, FlightTime, FindByCoord, L.FleetSound;
    var p0 := s.PlanetAt(r.origin);
    L.RefreshBalances(env, p0, s.TechsOf(p0.owner), c.read);
    var p := RefreshedAt(env, s, r.origin, c.read);
    L.DispatchRows(env, s, p, r, c.write);
    PositiveCounts(r.ships);
  }

  /** One more row, which is the requested one; the origin has paid for it; and nothing else is touched. */
  ghost predicate IsDispatch(env: Env, s: State, t: State, r: Request, c: Clock) {
    && s.HasPlanet(r.origin) && t.HasPlanet(r.origin) && t.HasFleet(|s.fleets|)
    && IsRowOf(env, s, r, c, t.FleetAt(|s.fleets|))
    && IsOriginAfter(env, s, r, c, t.FleetAt(|s.fleets|), t.PlanetAt(r.origin))
    && t == s.(planets := s.planets[r.origin := Some(t.PlanetAt(r.origin))],
               fleets := s.fleets + [t.fleets[|s.fleets|]], clock := c.write)
  }

  /** A dispatch that may leave is one, and any other leaves only the time. */
  lemma DispatchOutcome(env: Env, s: State, a: Step)
    requires L.Sound(s) && K.SlotsUnique(s.planets) && Enabled(s, a) && a.Send?
    ensures if E.MayLeave(env, s, a.r, a.c) then IsDispatch(env, s, Next(env, s, a), a.r, a.c)
            else Next(env, s, a) == s.(clock := a.c.write)
  {
    hide Dispatch, E.MayLeave, RefreshedAt, LeftBehind, Launched, IsRowOf, IsOriginAfter, NextOnPlanet, L.Sound;
    E.DispatchSucceedsIff(env, s, a.r, a.c);
    if E.MayLeave(env, s, a.r, a.c) {
      OriginPays(env, s, a.r, a.c);
      Recalls.DispatchOf(env, s, a.r, a.c);
      RefreshKeepsSlot(env, s, a.r.origin, a.c.read);
      LaunchedRow(env, s, a.r, a.c, RefreshedAt(env, s, a.r.origin, a.c.read));
    } else {
      RefusedDispatch(env, s, a.r, a.c);
    }
  }

  lemma RefusedDispatch(env: Env, s: State, r: Request, c: Clock)
    requires !Dispatch(env, s, r, c).1.Ok?
    ensures Dispatch(env, s, r, c).0 == s
  {
    hide RefreshedAt, DispatchError, LeftBehind, Launched;
  }

  lemma RefreshKeepsSlot(env: Env, s: State, pid: int, now: real)
    requires s.HasPlanet(pid)
    ensures RefreshedAt(env, s, pid, now).coord == s.PlanetAt(pid).coord
  {
  }

  // ---- aim ------------------------------------------------------------------------------------------

  ghost predicate OnAim(s: State, f: Fleet) {
    f.targetPlanet.Some? ==> s.HasPlanet(f.targetPlanet.value) && s.PlanetAt(f.targetPlanet.value).coord == f.target
  }

  /** Every fleet that is aimed at a planet is aimed at the one in its target slot. */
  ghost predicate Aimed(s: State) { forall fid :: s.HasFleet(fid) ==> OnAim(s, s.FleetAt(fid)) }

  /** Planets stay in their slots. */
  lemma SlotsStay(env: Env, s: State, a: Step, pid: int)
    requires Enabled(s, a) && s.HasPlanet(pid)
    ensures var t := Next(env, s, a);
            t.HasPlanet(pid) && t.PlanetAt(pid).coord == s.PlanetAt(pid).coord
  {
    hide Effect, K.IsFounding, NextOnPlanet;
    if K.IsFounding(s, a) {
      FoundingAdds(env, s, a);
    } else if a.Arrival? {
      K.ArrivalKeepsPlots(env, s, a);
    } else {
      K.OthersKeepPlots(env, s, a);
    }
  }

  lemma FoundingAdds(env: Env, s: State, a: Step)
    requires Enabled(s, a) && K.IsFounding(s, a)
    ensures var t := Next(env, s, a);
            |t.planets| == |s.planets| + 1 && t.planets[..|s.planets|] == s.planets
  {
    hide Founds, AddAll;
  }

  lemma RowStaysAimed(env: Env, s: State, a: Step, fid: int)
    requires L.Sound(s) && Aimed(s) && Enabled(s, a) && s.HasFleet(fid) && Next(env, s, a).HasFleet(fid)
    ensures OnAim(Next(env, s, a), Next(env, s, a).FleetAt(fid))
  {
    hide Effect, L.Sound, NextOnPlanet;
    Recalls.StepRow(env, s, a, fid);
    assert OnAim(s, s.FleetAt(fid));
    if s.FleetAt(fid).targetPlanet.Some? { SlotsStay(env, s, a, s.FleetAt(fid).targetPlanet.value); }
  }

  lemma NewRowIsAimed(env: Env, s: State, a: Step)
    requires L.Sound(s) && K.SlotsUnique(s.planets) && Enabled(s, a) && a.Send? && E.MayLeave(env, s, a.r, a.c)
    ensures var t := Next(env, s, a);
            t.HasFleet(|s.fleets|) && OnAim(t, t.FleetAt(|s.fleets|))
  {
    hide Effect, L.Sound, E.MayLeave, IsOriginAfter, NextOnPlanet, F.IsSlowest, Distance, FuelBill;
    DispatchOutcome(env, s, a);
    var f := Next(env, s, a).FleetAt(|s.fleets|);
    if f.targetPlanet.Some? { SlotsStay(env, s, a, f.targetPlanet.value); }
  }

  lemma StepStaysAimed(env: Env, s: State, a: Step)
    requires L.Sound(s) && K.SlotsUnique(s.planets) && Aimed(s) && Enabled(s, a)
    ensures Aimed(Next(env, s, a))
  {
    hide Effect, L.Sound, E.MayLeave, OnAim, K.SlotsUnique, NextOnPlanet;
    var t := Next(env, s, a);
    S.StepWinds(env, s, a);
    forall fid | t.HasFleet(fid) ensures OnAim(t, t.FleetAt(fid)) {
      if s.HasFleet(fid) {
        RowStaysAimed(env, s, a, fid);
      } else {
        Recalls.NewRow(env, s, a, fid);
        OnlySendsAdd(env, s, a, fid);
        NewRowIsAimed(env, s, a);
      }
    }
  }

  lemma OnlySendsAdd(env: Env, s: State, a: Step, fid: int)
    requires L.Sound(s) && Enabled(s, a) && !s.HasFleet(fid) && Next(env, s, a).HasFleet(fid)
    ensures a.Send? && E.MayLeave(env, s, a.r, a.c)
  {
    hide Arrive, RefreshedAt, Merged, DispatchError, LeftBehind, Launched, L.Sound, E.MayLeave, QueueBuilding,
         QueueUnits, QueueResearch, NextOnPlanet;
    S.StepWinds(env, s, a);
    if a.Send? { E.DispatchSucceedsIff(env, s, a.r, a.c); }
  }

  /** On every run every fleet stays aimed at whoever is in its target slot. */
  lemma {:induction false} RunStaysAimed(env: Env, s: State, run: seq<Step>)
    requires L.Sound(s) && K.SlotsUnique(s.planets) && K.WithinLimits(s) && Aimed(s) && Legal(env, s, run)
    ensures Aimed(Final(env, s, run))
    decreases |run|
  {
    hide Next, Enabled, L.Sound, Aimed, K.SlotsUnique, K.WithinLimits;
    if run != [] {
      StepStaysAimed(env, s, run[0]);
      L.NextBalances(env, s, run[0]);
      K.StepKeepsOrder(env, s, run[0]);
      RunStaysAimed(env, Next(env, s, run[0]), run[1..]);
    }
  }

  // ---- time ---------------------------------------------------------------------------------------------

  /** A fleet that is still on its way out is exactly what left. */
  lemma {:induction false} OutboundStays(env: Env, s: State, run: seq<Step>, fid: int)
    requires L.Sound(s) && Legal(env, s, run) && s.HasFleet(fid)
    requires Final(env, s, run).HasFleet(fid) && Final(env, s, run).FleetAt(fid).status == Outbound
    ensures s.FleetAt(fid) == Final(env, s, run).FleetAt(fid)
    decreases |run|
  {
    hide Next, Enabled, L.Sound;
    if run != [] {
      var a, t := run[0], Next(env, s, run[0]);
      L.NextBalances(env, s, a);
      FleetStaysOrGoes(env, s, a, run[1..], fid);
      OutboundStays(env, t, run[1..], fid);
      if a.Send? { SendKeepsRow(env, s, a, fid); } else { E.OutboundIsUntouched(env, s, a, fid); }
    }
  }

  lemma FleetStaysOrGoes(env: Env, s: State, a: Step, rest: seq<Step>, fid: int)
    requires L.Sound(s) && Enabled(s, a) && s.HasFleet(fid) && Legal(env, Next(env, s, a), rest)
    requires Final(env, Next(env, s, a), rest).HasFleet(fid)
    ensures Next(env, s, a).HasFleet(fid)
  {
    hide Next, Enabled, L.Sound;
    L.NextBalances(env, s, a);
    S.StepWinds(env, s, a);
    if !Next(env, s, a).HasFleet(fid) { Recalls.GoneStaysGone(env, Next(env, s, a), rest, fid); }
  }

  lemma SendKeepsRow(env: Env, s: State, a: Step, fid: int)
    requires L.Sound(s) && Enabled(s, a) && a.Send? && s.HasFleet(fid)
    ensures var t := Next(env, s, a);
            t.HasFleet(fid) && t.FleetAt(fid) == s.FleetAt(fid)
  {
    hide Next, Enabled, L.Sound;
    S.StepWinds(env, s, a);
  }

  /** Whatever happens in between, the arrival of a fleet that was sent is handled no sooner than the
      flight of its slowest hull takes, and then with the row that was sent. */
  lemma NoFleetArrivesEarly(env: Env, s: State, a: Step, run: seq<Step>, b: Step)
    requires L.Sound(s) && K.SlotsUnique(s.planets) && Enabled(s, a) && a.Send? && E.MayLeave(env, s, a.r, a.c)
    requires Legal(env, Next(env, s, a), run) && b.Arrival? && b.fid == |s.fleets|
    requires Enabled(Final(env, Next(env, s, a), run), b)
    ensures s.HasPlanet(a.r.origin) && Final(env, Next(env, s, a), run).HasFleet(b.fid)
    ensures IsRowOf(env, s, a.r, a.c, Final(env, Next(env, s, a), run).FleetAt(b.fid))
    ensures exists v :: F.IsSlowest(v, a.r.ships, s.TechsOf(a.r.user))
                        && b.c.read >= a.c.write
                           + env.flight(Distance(s.PlanetAt(a.r.origin).coord, a.r.target), v, Throttle(a.r)) as real
  {
    hide Next, L.Sound, K.SlotsUnique, E.MayLeave, IsOriginAfter, F.IsSlowest, Distance, FuelBill, NextOnPlanet, Final;
    DispatchOutcome(env, s, a);
    L.NextBalances(env, s, a);
    DueIsPast(Final(env, Next(env, s, a), run), b);
    OutboundStays(env, Next(env, s, a), run, b.fid);
  }

  /** What a sweep handles is due by its own reading. */
  lemma DueIsPast(s: State, a: Step)
    requires Enabled(s, a)
    ensures a.Arrival? ==> s.HasFleet(a.fid) && s.FleetAt(a.fid).status == Outbound
                           && s.FleetAt(a.fid).arrivalAt <= a.c.read
    ensures a.Homecoming? ==> s.HasFleet(a.fid) && s.FleetAt(a.fid).status == Returning
                              && s.FleetAt(a.fid).returnAt.Some? && s.FleetAt(a.fid).returnAt.value <= a.c.read
  {
    hide NextOnPlanet;
  }
}

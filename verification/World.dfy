/** The tables of the game and what each transaction does to them.  Every transition is a
    function on the whole state, so that runs can be reasoned about; the classes in
    Database.dfy and its services carry the transitions out on mutable tables.

    A row's id is its index.  Planets and fleets may be missing (deleted).  Every
    transaction reads the clock twice: `read` when it refreshes resources, `write`
    when it writes its own rows. */
module World {
  import opened Wrappers
  import opened Catalog
  import opened Sums
  import opened Formulas
  import P = Production
  import A = Accrual
  import C = Combat
  import CP = CombatProperties
  import F = Flight

  type Techs = map<TechType, int>

  /** Resource pools. */
  datatype Res = Res(metal: real, crystal: real, deuterium: real) {
    predicate NonNegative() { metal >= 0.0 && crystal >= 0.0 && deuterium >= 0.0 }
    function Plus(o: Res): Res { Res(metal + o.metal, crystal + o.crystal, deuterium + o.deuterium) }
    function Minus(o: Res): Res { Res(metal - o.metal, crystal - o.crystal, deuterium - o.deuterium) }
    /** The affordability check of the queues: whole units only. */
    predicate Affords(c: Cost) {
      metal.Floor >= c.metal && crystal.Floor >= c.crystal && deuterium.Floor >= c.deuterium
    }
  }

  const NOTHING: Res := Res(0.0, 0.0, 0.0)

  function Units(c: Cost): Res { Res(c.metal as real, c.crystal as real, c.deuterium as real) }

  datatype Coord = Coord(galaxy: int, system: int, position: int)

  datatype Planet = Planet(
    owner: int, coord: Coord, pools: Res, cursor: real,
    ships: map<ShipType, int>, defenses: map<DefenseType, int>, buildings: map<BuildingType, int>,
    fieldsUsed: int, fieldsTotal: int, tempMin: int, tempMax: int)

  datatype Mission = Attack | Transport | Deploy | Colonize | Spy | Recycle

  datatype Status = Outbound | Returning | Returned

  datatype Fleet = Fleet(
    owner: int, origin: int, mission: Mission, status: Status,
    target: Coord, targetPlanet: Option<int>,
    departure: real, arrivalAt: real, returnAt: Option<real>,
    cargo: Cost, fuel: int, ships: map<ShipType, int>,
    arrivalProcessed: bool, returnProcessed: bool)

  datatype ItemKey =
    | Build(building: BuildingType)
    | Study(tech: TechType)
    | Hulls(ship: ShipType)
    | Turrets(defense: DefenseType)

  datatype Item = Item(
    planet: int, user: int, key: ItemKey, target: int, count: int, cost: Cost,
    started: real, finished: real, cancelled: bool, applied: bool)
  {
    predicate Active() { !cancelled && !applied }
    predicate ActiveOn(pid: int) { planet == pid && Active() }
  }

  /** A recall between its unlocked read and its later write. */
  datatype Recall = Recall(fleet: int, returnAt: real)

  datatype State = State(
    planets: seq<Option<Planet>>, fleets: seq<Option<Fleet>>, queue: seq<Item>,
    techs: map<int, Techs>, recalls: map<int, Recall>, clock: real)
  {
    predicate HasPlanet(id: int) { 0 <= id < |planets| && planets[id].Some? }
    predicate HasFleet(id: int) { 0 <= id < |fleets| && fleets[id].Some? }
    function PlanetAt(id: int): Planet requires HasPlanet(id) { planets[id].value }
    function FleetAt(id: int): Fleet requires HasFleet(id) { fleets[id].value }
    function TechsOf(user: int): Techs { if user in techs then techs[user] else map[] }
    function WithPlanet(id: int, p: Planet): State requires HasPlanet(id) { this.(planets := planets[id := Some(p)]) }
    function WithFleet(id: int, f: Option<Fleet>): State requires HasFleet(id) { this.(fleets := fleets[id := f]) }
  }

  // ---- what the universe fixes ----------------------------------------------------------

  type SoundReport = r: P.Report | r.perHour.NonNegative() witness P.Report(P.Rates(0.0, 0.0, 0.0), 0, 0, 1.0)
  type Capacity = r: Res | r.NonNegative() witness NOTHING
  type Speed = x: real | x > 0.0 witness 1.0
  type Duration = x: int | x >= 1 witness 1

  /** The universe row and the formulas that depend on it. */
  datatype Env = Env(
    report: (Planet, Techs) -> SoundReport, capacity: Planet -> Capacity,
    /** Flight time for a distance, the speed of the slowest ship and the throttle. */
    flight: (int, int, int) -> Duration,
    speedEconomy: Speed, speedResearch: Speed, galaxies: int, systems: int)

  function MetalBonus(position: int): real {
    if position == 6 || position == 10 then 0.17
    else if position == 7 || position == 9 then 0.23
    else if position == 8 then 0.35
    else 0.0
  }

  function CrystalBonus(position: int): real {
    if position == 1 then 0.40 else if position == 2 then 0.30 else if position == 3 then 0.20 else 0.0
  }

  /** The formulas of the source, for one universe. */
  function Universe(speedEconomy: Speed, speedResearch: Speed, speedFleet: int, galaxies: int, systems: int,
                    silo: nat -> nat, root: real -> real): Env
  {
    Env((p: Planet, t: Techs) => P.ComputePlanetProduction(p.buildings, t,
                           P.Site(p.tempMin, p.tempMax, MetalBonus(p.coord.position), CrystalBonus(p.coord.position),
                                  speedEconomy)),
        (p: Planet) => Res(StorageCapacity(Level(p.buildings, MetalStorage), silo) as real,
                 StorageCapacity(Level(p.buildings, CrystalStorage), silo) as real,
                 StorageCapacity(Level(p.buildings, DeuteriumTank), silo) as real),
        (distance: int, speed: int, percent: int) => F.FlightDuration(distance, speed, speedFleet, percent, root),
        speedEconomy, speedResearch, galaxies, systems)
  }

  datatype Clock = Clock(read: real, write: real)

  // ---- resources ------------------------------------------------------------------------

  function Gains(env: Env, p: Planet, t: Techs, now: real): Res {
    var r := env.report(p, t).perHour;
    var seconds := now - p.cursor;
    Res(A.Gain(r.metal, seconds), A.Gain(r.crystal, seconds), A.Gain(r.deuterium, seconds))
  }

  function Settled(pools: Res, gains: Res, cap: Res): Res {
    Res(A.Settle(pools.metal, gains.metal, cap.metal), A.Settle(pools.crystal, gains.crystal, cap.crystal),
        A.Settle(pools.deuterium, gains.deuterium, cap.deuterium))
  }

  /** The lazy refresh: credits the time since the cursor, unless that is under a second. */
  function Refreshed(env: Env, p: Planet, t: Techs, now: real): Planet {
    if A.Skips(p.cursor, now) then p
    else p.(pools := Settled(p.pools, Gains(env, p, t, now), env.capacity(p)), cursor := now)
  }

  function RefreshedAt(env: Env, s: State, pid: int, now: real): Planet
    requires s.HasPlanet(pid)
  {
    Refreshed(env, s.PlanetAt(pid), s.TechsOf(s.PlanetAt(pid).owner), now)
  }

  function Refresh(env: Env, s: State, pid: int, now: real): State {
    if s.HasPlanet(pid) then s.WithPlanet(pid, RefreshedAt(env, s, pid, now)) else s
  }

  function Credit(p: Planet, cargo: Cost, now: real): Planet {
    if cargo.metal > 0 || cargo.crystal > 0 || cargo.deuterium > 0
    then p.(pools := p.pools.Plus(Units(cargo)), cursor := now)
    else p
  }

  // ---- unit counts ------------------------------------------------------------------------

  /** The upsert of one count: the clamp only guards an existing row. */
  function AddCount<K>(m: map<K, int>, k: K, delta: int): map<K, int> {
    m[k := if k in m then Max(0, m[k] + delta) else delta]
  }

  /** The same for every key of `d`, in whatever order. */
  function AddAll<K>(m: map<K, int>, d: map<K, int>): map<K, int> {
    map k | k in m.Keys + d.Keys :: if k !in d then m[k] else if k in m then Max(0, m[k] + d[k]) else d[k]
  }

  function Positive<K>(m: map<K, int>): map<K, int> { map k | k in m && m[k] > 0 :: m[k] }
  function Negated<K>(m: map<K, int>): map<K, int> { map k | k in m :: -m[k] }

  function CountIn(m: map<ShipType, int>): ShipType -> int { t => Level(m, t) }
  ghost function HeadCount(ships: map<ShipType, int>): int { SumKeys(ships.Keys, CountIn(ships)) }
  function CargoIn(m: map<ShipType, int>): ShipType -> int {
    t => if Level(m, t) > 0 then ShipStats(t).cargo * m[t] else 0
  }
  function FuelIn(m: map<ShipType, int>): ShipType -> int {
    t => if Level(m, t) > 0 then ShipStats(t).fuel * m[t] else 0
  }

  ghost function CargoCapacity(ships: map<ShipType, int>): int { SumKeys(ships.Keys, CargoIn(ships)) }

  // ---- dispatch ---------------------------------------------------------------------------

  datatype Error =
    | UnknownMission | BadTarget | NoShips | MissingHull | BadCargo | BadSpeed | NotFound | Forbidden | SelfTarget
    | NotEnoughShips | OutsideUniverse | OverCapacity | InsufficientResources | NotRecallable
    | QueueBusy | PrerequisiteNotMet | BadCount | AlreadyResolved | NoPlanet

  datatype Reply = Ok | Failed(error: Error)

  /** `mission` is None for an unknown key. */
  datatype Request = Request(
    user: int, origin: int, mission: Option<Mission>, target: Coord,
    ships: map<ShipType, int>, cargo: Cost, speedPercent: int)

  function Abs(x: int): int { if x < 0 then -x else x }

  function Distance(a: Coord, b: Coord): int {
    if a.galaxy != b.galaxy then 20000 * Abs(a.galaxy - b.galaxy)
    else if a.system != b.system then 2700 + 95 * Abs(a.system - b.system)
    else if a.position != b.position then 1000 + 5 * Abs(a.position - b.position)
    else 5
  }

  /** What one unit of base consumption burns on the way. */
  function Burn(distance: int, speedPercent: int): real {
    var sp := speedPercent as real / 100.0;
    (distance as real / 35000.0) * ((1.0 + sp) * (1.0 + sp))
  }

  function Scaled(n: int, x: real): real { n as real * x }

  ghost function Fuel(ships: map<ShipType, int>, distance: int, speedPercent: int): (f: int)
    ensures f >= 1
  {
    Max(1, Scaled(SumKeys(ships.Keys, FuelIn(ships)), Burn(distance, speedPercent)).Floor)
  }

  predicate HasRequiredHull(m: Mission, ships: map<ShipType, int>) {
    match m
    case Colonize => Level(ships, ColonyShip) >= 1
    case Recycle => Level(ships, Recycler) >= 1
    case Spy => Level(ships, EspionageProbe) >= 1
    case _ => true
  }

  function FindByCoord(planets: seq<Option<Planet>>, c: Coord): Option<int> {
    if planets == [] then None
    else
      var n := |planets| - 1;
      if planets[n].Some? && planets[n].value.coord == c then Some(n) else FindByCoord(planets[..n], c)
  }

  function SpeedOf(r: Request): int { if r.speedPercent <= 0 then 100 else r.speedPercent }

  /** The checks that need no table. */
  function RequestError(r: Request): Option<Error> {
    if r.mission.None? then Some(UnknownMission)
    else if r.target.galaxy < 1 || r.target.system < 1 || r.target.position < 1 || r.target.position > 15
      then Some(BadTarget)
    else if Positive(r.ships) == map[] then Some(NoShips)
    else if !HasRequiredHull(r.mission.value, Positive(r.ships)) then Some(MissingHull)
    else if !r.cargo.NonNegative() then Some(BadCargo)
    else if SpeedOf(r) < 10 || SpeedOf(r) > 100 then Some(BadSpeed)
    else None
  }

  ghost function FuelFor(p: Planet, r: Request): int {
    Fuel(Positive(r.ships), Distance(p.coord, r.target), SpeedOf(r))
  }

  ghost function Needed(p: Planet, r: Request): Res {
    Units(r.cargo.(deuterium := r.cargo.deuterium + FuelFor(p, r)))
  }

  /** The checks against the refreshed origin planet. */
  ghost function OriginError(env: Env, p: Planet, r: Request): Option<Error> {
    var wanted := Positive(r.ships);
    if exists t :: t in wanted && Level(p.ships, t) < wanted[t] then Some(NotEnoughShips)
    else if r.target.galaxy > env.galaxies || r.target.system > env.systems then Some(OutsideUniverse)
    else if r.cargo.Sum() > CargoCapacity(wanted) then Some(OverCapacity)
    else
      var need := Needed(p, r);
      if p.pools.metal < need.metal || p.pools.crystal < need.crystal || p.pools.deuterium < need.deuterium
      then Some(InsufficientResources)
      else None
  }

  ghost function FlightTime(env: Env, s: State, r: Request, p: Planet): Duration {
    env.flight(Distance(p.coord, r.target), F.SlowestSpeed(Positive(r.ships), s.TechsOf(r.user)), SpeedOf(r))
  }

  ghost function Launched(env: Env, s: State, r: Request, p: Planet, now: real): Fleet
    requires r.mission.Some?
  {
    Fleet(r.user, r.origin, r.mission.value, Outbound, r.target, FindByCoord(s.planets, r.target),
          now, now + FlightTime(env, s, r, p) as real, None, r.cargo, FuelFor(p, r), Positive(r.ships), false, false)
  }

  ghost function DispatchError(env: Env, s: State, r: Request, c: Clock): Option<Error> {
    if RequestError(r).Some? then RequestError(r)
    else if !s.HasPlanet(r.origin) then Some(NotFound)
    else if s.PlanetAt(r.origin).owner != r.user then Some(Forbidden)
    else if s.PlanetAt(r.origin).coord == r.target then Some(SelfTarget)
    else OriginError(env, RefreshedAt(env, s, r.origin, c.read), r)
  }

  /** The origin once ships, cargo and fuel have left. */
  ghost function LeftBehind(p: Planet, r: Request, now: real): Planet {
    p.(pools := p.pools.Minus(Needed(p, r)), cursor := now, ships := AddAll(p.ships, Negated(Positive(r.ships))))
  }

  /** Ships, cargo and fuel leave the planet and a fleet row appears. */
  ghost function Dispatch(env: Env, s: State, r: Request, c: Clock): (State, Reply) {
    var error := DispatchError(env, s, r, c);
    if error.Some? then (s, Failed(error.value))
    else
      var p := RefreshedAt(env, s, r.origin, c.read);
      (s.WithPlanet(r.origin, LeftBehind(p, r, c.write)).(fleets := s.fleets + [Some(Launched(env, s, r, p, c.write))]),
       Ok)
  }

  // ---- recall -----------------------------------------------------------------------------

  function TurnTime(departure: real, now: real): real {
    var elapsed := now - departure;
    now + if elapsed < 0.0 then 0.0 else elapsed
  }

  function RecallRead(s: State, call: int, user: int, fid: int, now: real): (State, Reply) {
    if !s.HasFleet(fid) then (s, Failed(NotFound))
    else if s.FleetAt(fid).owner != user then (s, Failed(Forbidden))
    else if s.FleetAt(fid).status != Outbound then (s, Failed(NotRecallable))
    else (s.(recalls := s.recalls[call := Recall(fid, TurnTime(s.FleetAt(fid).departure, now))]), Ok)
  }

  /** The write does not look at the row again: it overwrites status and return time. */
  function RecallWrite(s: State, call: int): State {
    if call !in s.recalls then s
    else
      var r := s.recalls[call];
      var t := s.(recalls := s.recalls - {call});
      if t.HasFleet(r.fleet)
        then t.WithFleet(r.fleet, Some(t.FleetAt(r.fleet).(status := Returning, returnAt := Some(r.returnAt))))
      else t
  }

  // ---- arrivals ---------------------------------------------------------------------------

  predicate DueArrival(f: Fleet, now: real) { f.status == Outbound && !f.arrivalProcessed && f.arrivalAt <= now }
  predicate DueReturn(f: Fleet, now: real) {
    f.status == Returning && !f.returnProcessed && f.returnAt.Some? && f.returnAt.value <= now
  }

  /** Turned around by the arrival handler. */
  function TurnedBack(f: Fleet, now: real): Fleet {
    f.(arrivalProcessed := true, status := Returning, returnAt := Some(TurnTime(f.departure, now)))
  }

  function Bounce(s: State, fid: int, now: real): State
    requires s.HasFleet(fid)
  {
    s.WithFleet(fid, Some(TurnedBack(s.FleetAt(fid), now)))
  }

  predicate TargetGone(s: State, f: Fleet) { f.targetPlanet.None? || !s.HasPlanet(f.targetPlanet.value) }

  function CombatTechs(t: Techs): C.CombatTech {
    C.CombatTech(Max(0, Level(t, Weapons)), Max(0, Level(t, Shielding)), Max(0, Level(t, Armour)))
  }

  ghost function Battle(fleetShips: map<ShipType, int>, atk: Techs, p: Planet, def: Techs): C.CombatResult {
    CP.AsCoded(CP.AnyShipList(fleetShips, CombatTechs(atk)), CP.AnyShipList(p.ships, CombatTechs(def)),
               CP.AnyDefenseList(p.defenses, CombatTechs(def)))
  }

  function Survivors(ships: map<ShipType, int>, lost: C.Losses): map<ShipType, int> {
    map t | t in ships :: Max(0, ships[t] - Level(lost, C.Hull(t)))
  }

  function ShipLosses(lost: C.Losses): map<ShipType, int> {
    map t: ShipType | C.Hull(t) in lost && lost[C.Hull(t)] > 0 :: -lost[C.Hull(t)]
  }

  function DefenseLosses(lost: C.Losses): map<DefenseType, int> {
    map t: DefenseType | C.Turret(t) in lost && lost[C.Turret(t)] > 0 :: -lost[C.Turret(t)]
  }

  function Least(a: int, b: int): int { if a < b then a else b }

  /** Half of each pool is lootable; the hold is filled with metal, then crystal, then deuterium. */
  function Loot(pools: Res, hold: int): Cost {
    var m, c, d := (pools.metal / 2.0).Floor, (pools.crystal / 2.0).Floor, (pools.deuterium / 2.0).Floor;
    var free := Max(0, hold);
    var takeM := Least(m, free);
    var takeC := Least(c, free - takeM);
    var takeD := Least(d, free - takeM - takeC);
    Cost(takeM, takeC, takeD)
  }

  /** The loot fills the hold as far as the halves go, and takes a resource only when the
      halves of the earlier ones are exhausted. */
  lemma LootIsMaximal(pools: Res, hold: int)
    requires pools.NonNegative()
    ensures var m, c, d := (pools.metal / 2.0).Floor, (pools.crystal / 2.0).Floor, (pools.deuterium / 2.0).Floor;
            var l := Loot(pools, hold);
            && l.NonNegative() && l.metal <= m && l.crystal <= c && l.deuterium <= d
            && l.Sum() == Least(Max(0, hold), m + c + d)
            && (l.crystal > 0 ==> l.metal == m) && (l.deuterium > 0 ==> l.metal == m && l.crystal == c)
            && pools.Minus(Units(l)).NonNegative()
  {
  }

  function PlusCost(a: Cost, b: Cost): Cost {
    Cost(a.metal + b.metal, a.crystal + b.crystal, a.deuterium + b.deuterium)
  }

  /** The defender's row after the fire. */
  function Hit(p: Planet, result: C.CombatResult): Planet {
    p.(ships := AddAll(p.ships, ShipLosses(result.defenderShipsDestroyed)),
       defenses := AddAll(p.defenses, DefenseLosses(result.defenderDefensesDestroyed)))
  }

  function Remains(f: Fleet, result: C.CombatResult): map<ShipType, int> {
    Survivors(f.ships, result.attackerDestroyed)
  }

  ghost predicate Loots(f: Fleet, result: C.CombatResult) {
    result.winner == C.Attacker && HeadCount(Remains(f, result)) > 0
  }

  ghost function Spoils(f: Fleet, p: Planet, result: C.CombatResult): (loot: Cost)
    ensures p.pools.NonNegative() ==> loot.NonNegative() && p.pools.Minus(Units(loot)).NonNegative()
  {
    if Loots(f, result) then LootFor(p.pools, CargoCapacity(Remains(f, result)) - f.cargo.Sum()) else Cost(0, 0, 0)
  }

  function LootFor(pools: Res, hold: int): (loot: Cost)
    ensures loot == Loot(pools, hold)
    ensures pools.NonNegative() ==> loot.NonNegative() && pools.Minus(Units(loot)).NonNegative()
  {
    if pools.NonNegative() then LootIsMaximal(pools, hold); Loot(pools, hold) else Loot(pools, hold)
  }

  /** The planet after the battle: its cursor moves only when it is looted. */
  ghost function Plundered(f: Fleet, p: Planet, result: C.CombatResult, loot: Cost, now: real): Planet {
    if Loots(f, result) then Hit(p, result).(pools := p.pools.Minus(Units(loot)), cursor := now)
    else Hit(p, result)
  }

  /** The fleet after the battle, if anything of it is left. */
  ghost function Victorious(f: Fleet, result: C.CombatResult, loot: Cost, now: real): Option<Fleet> {
    if HeadCount(Remains(f, result)) == 0 then None
    else Some(TurnedBack(f.(ships := Remains(f, result), cargo := PlusCost(f.cargo, loot)), now))
  }

  ghost function ResolveAttack(env: Env, s: State, fid: int, c: Clock): State
    requires s.HasFleet(fid)
  {
    var f := s.FleetAt(fid);
    if f.ships == map[] || TargetGone(s, f) then Bounce(s, fid, c.write)
    else
      var pid := f.targetPlanet.value;
      var p := RefreshedAt(env, s, pid, c.read);
      var result := Battle(f.ships, s.TechsOf(f.owner), p, s.TechsOf(p.owner));
      var loot := Spoils(f, p, result);
      s.WithPlanet(pid, Plundered(f, p, result, loot, c.write)).WithFleet(fid, Victorious(f, result, loot, c.write))
  }

  function ResolveTransport(env: Env, s: State, fid: int, c: Clock): State
    requires s.HasFleet(fid)
  {
    var f := s.FleetAt(fid);
    if TargetGone(s, f) then Bounce(s, fid, c.write)
    else
      var pid := f.targetPlanet.value;
      var p := RefreshedAt(env, s, pid, c.read);
      var emptied := if f.cargo.metal > 0 || f.cargo.crystal > 0 || f.cargo.deuterium > 0
        then f.(cargo := Cost(0, 0, 0)) else f;
      s.WithPlanet(pid, Credit(p, f.cargo, c.write)).WithFleet(fid, Some(TurnedBack(emptied, c.write)))
  }

  /** Ships and cargo stay at the target; the fleet row goes. */
  function Merged(p: Planet, f: Fleet, now: real): Planet {
    Credit(p.(ships := AddAll(p.ships, Positive(f.ships))), f.cargo, now)
  }

  function ResolveDeploy(env: Env, s: State, fid: int, c: Clock): State
    requires s.HasFleet(fid)
  {
    var f := s.FleetAt(fid);
    if TargetGone(s, f) then Bounce(s, fid, c.write)
    else if s.PlanetAt(f.targetPlanet.value).owner != f.owner then ResolveTransport(env, s, fid, c)
    else
      var pid := f.targetPlanet.value;
      s.WithPlanet(pid, Merged(RefreshedAt(env, s, pid, c.read), f, c.write)).WithFleet(fid, None)
  }

  function MaxPlanets(astro: int): int { 1 + (Max(0, astro) + 1) / 2 }

  predicate CanColonizePosition(astro: int, position: int) {
    if astro >= 8 then 1 <= position <= 15
    else if astro >= 6 then 2 <= position <= 14
    else if astro >= 4 then 3 <= position <= 13
    else 4 <= position <= 12
  }

  function OwnedBy(user: int): Option<Planet> -> int {
    (p: Option<Planet>) => if p.Some? && p.value.owner == user then 1 else 0
  }

  predicate ColonizationRejected(s: State, f: Fleet) {
    var astro := Level(s.TechsOf(f.owner), Astrophysics);
    !CanColonizePosition(astro, f.target.position) || Sum(s.planets, OwnedBy(f.owner)) >= MaxPlanets(astro)
  }

  /** What chance decides: the roll against the probes and the new planet's attributes. */
  datatype Dice = Dice(roll: real, fieldsTotal: int, tempMin: int, tempMax: int)

  function LessOneColonyShip(ships: map<ShipType, int>): map<ShipType, int> {
    if Level(ships, ColonyShip) > 0 then ships[ColonyShip := ships[ColonyShip] - 1] else ships
  }

  function Colony(f: Fleet, d: Dice, now: real): Planet {
    Planet(f.owner, f.target, Units(f.cargo), now, AddAll(map[], Positive(LessOneColonyShip(f.ships))), map[], map[],
           0, d.fieldsTotal, d.tempMin, d.tempMax)
  }

  predicate Founds(s: State, f: Fleet) { FindByCoord(s.planets, f.target).None? && !ColonizationRejected(s, f) }

  function ResolveColonize(s: State, fid: int, d: Dice, c: Clock): State
    requires s.HasFleet(fid)
  {
    var f := s.FleetAt(fid);
    if !Founds(s, f) then Bounce(s, fid, c.write)
    else s.WithFleet(fid, None).(planets := s.planets + [Some(Colony(f, d, c.write))])
  }

  /** The roll of counter-espionage against the odds of probes and technologies. */
  predicate Caught(s: State, f: Fleet, d: Dice)
    requires !TargetGone(s, f)
  {
    var owner := s.PlanetAt(f.targetPlanet.value).owner;
    d.roll < F.CounterEspionageChance(Level(f.ships, EspionageProbe), Level(s.TechsOf(owner), Espionage),
                                      Level(s.TechsOf(f.owner), Espionage))
  }

  function ResolveSpy(env: Env, s: State, fid: int, d: Dice, c: Clock): State
    requires s.HasFleet(fid)
  {
    var f := s.FleetAt(fid);
    if TargetGone(s, f) then Bounce(s, fid, c.write)
    else
      var t := s.WithPlanet(f.targetPlanet.value, RefreshedAt(env, s, f.targetPlanet.value, c.read));
      if Caught(s, f, d) then t.WithFleet(fid, None) else Bounce(t, fid, c.write)
  }

  ghost function Arrive(env: Env, s: State, fid: int, d: Dice, c: Clock): State
    requires s.HasFleet(fid)
  {
    match s.FleetAt(fid).mission
    case Attack => ResolveAttack(env, s, fid, c)
    case Transport => ResolveTransport(env, s, fid, c)
    case Deploy => ResolveDeploy(env, s, fid, c)
    case Colonize => ResolveColonize(s, fid, d, c)
    case Spy => ResolveSpy(env, s, fid, d, c)
    case Recycle => Bounce(s, fid, c.write)
  }

  function Return(env: Env, s: State, fid: int, c: Clock): State
    requires s.HasFleet(fid)
  {
    var f := s.FleetAt(fid);
    if !s.HasPlanet(f.origin) then s.WithFleet(fid, None)
    else
      s.WithPlanet(f.origin, Merged(RefreshedAt(env, s, f.origin, c.read), f, c.write))
       .WithFleet(fid, Some(f.(returnProcessed := true, status := Returned)))
  }

  // ---- the build queue ----------------------------------------------------------------------

  /** `lab` is the highest research laboratory of the account. */
  predicate Satisfied(r: Prereq, buildings: map<BuildingType, int>, techs: Techs, lab: int) {
    match r
    case NeedsBuilding(b, level) => Level(buildings, b) >= level
    case NeedsTech(t, level) => Level(techs, t) >= level
    case NeedsLab(level) => lab >= level
    case NeedsShipyard(level) => Level(buildings, Shipyard) >= level
  }

  predicate Meets(reqs: seq<Prereq>, buildings: map<BuildingType, int>, techs: Techs, lab: int) {
    forall r :: r in reqs ==> Satisfied(r, buildings, techs, lab)
  }

  function ActiveOn(pid: int): Item -> int { (i: Item) => if i.ActiveOn(pid) then 1 else 0 }
  function ActiveResearch(user: int): Item -> int {
    (i: Item) => if i.user == user && i.key.Study? && i.Active() then 1 else 0
  }

  /** The repair pass: pending upgrades that the planet already has are marked applied. */
  predicate Obsolete(i: Item, pid: int, buildings: map<BuildingType, int>) {
    i.ActiveOn(pid) && i.key.Build? && i.target > 0 && Level(buildings, i.key.building) >= i.target
  }

  function Repaired(queue: seq<Item>, pid: int, buildings: map<BuildingType, int>): seq<Item> {
    seq(|queue|, k requires 0 <= k < |queue| =>
      if Obsolete(queue[k], pid, buildings) then queue[k].(applied := true) else queue[k])
  }

  /** The highest level already paid for. */
  function PendingLevel(queue: seq<Item>, pid: int, b: BuildingType, level: int): int {
    if queue == [] then level
    else
      var i := queue[|queue|-1];
      var rest := PendingLevel(queue[..|queue|-1], pid, b, level);
      if i.ActiveOn(pid) && i.key == Build(b) && i.target > rest then i.target else rest
  }

  /** Chained to the tail of whatever is active on the planet. */
  function StartTime(queue: seq<Item>, pid: int, now: real): real {
    if queue == [] then now
    else
      var i := queue[|queue|-1];
      var rest := StartTime(queue[..|queue|-1], pid, now);
      if i.ActiveOn(pid) && i.finished > rest then i.finished else rest
  }

  /** A metal-starved planet without energy gets its first solar plant for what it has. */
  function RescuedMetal(env: Env, b: BuildingType, target: int, p: Planet, techs: Techs, cost: Cost): int {
    if b != SolarPlant || target != 1 || Level(p.buildings, SolarPlant) > 0 then cost.metal
    else if p.pools.crystal.Floor < cost.crystal || p.pools.deuterium.Floor < cost.deuterium
      || p.pools.metal.Floor >= cost.metal then cost.metal
    else
      var r := env.report(p, techs);
      if r.energyProduced > 0 || r.energyConsumed == 0 then cost.metal
      else if p.pools.metal <= 0.0 then 0 else p.pools.metal.Floor
  }

  /** When the rescue changes the price it lowers it, to exactly the whole units of metal that
      the planet has, and the plant becomes affordable; and it only does so for a first
      solar plant of a planet whose consumers run without any energy. */
  lemma RescueIsAffordable(env: Env, b: BuildingType, target: int, p: Planet, techs: Techs)
    requires p.pools.NonNegative()
    ensures var full, cost := BuildingLevelCost(b, target), UpgradeCost(env, b, target, p, techs);
            && cost.crystal == full.crystal && cost.deuterium == full.deuterium && cost.metal <= full.metal
            && (cost.metal != full.metal ==>
                  && b == SolarPlant && target == 1 && Level(p.buildings, SolarPlant) <= 0
                  && env.report(p, techs).energyProduced <= 0 && env.report(p, techs).energyConsumed != 0
                  && cost.metal == p.pools.metal.Floor && p.pools.Affords(cost) && !p.pools.Affords(full))
  {
    hide LevelCost;
  }

  function UpgradeCost(env: Env, b: BuildingType, target: int, p: Planet, techs: Techs): Cost {
    var cost := BuildingLevelCost(b, target);
    cost.(metal := RescuedMetal(env, b, target, p, techs, cost))
  }

  function Paid(p: Planet, cost: Cost, now: real): Planet {
    p.(pools := p.pools.Minus(Units(cost)), cursor := now)
  }

  /** Debits the refreshed planet and appends the row. */
  function Enqueue(s: State, pid: int, p: Planet, queue: seq<Item>, item: Item, now: real): State
    requires s.HasPlanet(pid)
  {
    s.WithPlanet(pid, Paid(p, item.cost, now)).(queue := queue + [item])
  }

  function PlanetError(s: State, user: int, pid: int): Option<Error> {
    if !s.HasPlanet(pid) then Some(NotFound)
    else if s.PlanetAt(pid).owner != user then Some(Forbidden)
    else None
  }

  /** The checks every order goes through, in this order. */
  function OrderError(busy: bool, met: bool, pools: Res, cost: Cost): Option<Error> {
    if busy then Some(QueueBusy)
    else if !met then Some(PrerequisiteNotMet)
    else if !pools.Affords(cost) then Some(InsufficientResources)
    else None
  }

  function UpgradeError(queue: seq<Item>, pid: int, b: BuildingType, p: Planet, techs: Techs,
                        cost: Cost): Option<Error> {
    OrderError(Sum(queue, ActiveOn(pid)) >= BUILD_QUEUE_MAX_ACTIVE,
               Meets(BuildingPrerequisites(b), p.buildings, techs, 0), p.pools, cost)
  }

  /** The row of an upgrade, chained behind what is active on the planet. */
  function UpgradeItem(env: Env, queue: seq<Item>, pid: int, p: Planet, b: BuildingType, target: int, cost: Cost,
                       now: real): Item {
    var seconds := BuildTime(cost, Max(0, Level(p.buildings, RoboticsFactory)),
                             Max(0, Level(p.buildings, NaniteFactory)),
                             env.speedEconomy, EarlyDivisor(target));
    var start := StartTime(queue, pid, now);
    Item(pid, p.owner, Build(b), target, 1, cost, start, start + seconds as real, false, false)
  }

  function QueueBuilding(env: Env, s: State, user: int, pid: int, b: BuildingType, c: Clock): (State, Reply) {
    if PlanetError(s, user, pid).Some? then (s, Failed(PlanetError(s, user, pid).value))
    else
      var p := RefreshedAt(env, s, pid, c.read);
      var techs := s.TechsOf(p.owner);
      var queue := Repaired(s.queue, pid, p.buildings);
      var target := PendingLevel(queue, pid, b, Level(p.buildings, b)) + 1;
      var cost := UpgradeCost(env, b, target, p, techs);
      var error := UpgradeError(queue, pid, b, p, techs, cost);
      if error.Some? then (s, Failed(error.value))
      else (Enqueue(s, pid, p, queue, UpgradeItem(env, queue, pid, p, b, target, cost, c.write), c.write), Ok)
  }

  /** Opening the queue page also runs the repair pass. */
  function ViewQueue(s: State, user: int, pid: int): (State, Reply) {
    if PlanetError(s, user, pid).Some? then (s, Failed(PlanetError(s, user, pid).value))
    else (s.(queue := Repaired(s.queue, pid, s.PlanetAt(pid).buildings)), Ok)
  }

  /** A batch of ships or of defenses. */
  function UnitCost(key: ItemKey): Cost {
    match key
    case Hulls(t) => ShipStats(t).cost
    case Turrets(t) => DefenseStats(t).cost
    case _ => Cost(0, 0, 0)
  }

  function UnitPrereqs(key: ItemKey): seq<Prereq> {
    match key
    case Hulls(t) => ShipPrerequisites(t)
    case Turrets(t) => DefensePrerequisites(t)
    case _ => []
  }

  function QueueUnits(env: Env, s: State, user: int, pid: int, key: ItemKey, count: int, c: Clock): (State, Reply) {
    if count < 1 || count > MAX_UNIT_BATCH then (s, Failed(BadCount))
    else if PlanetError(s, user, pid).Some? then (s, Failed(PlanetError(s, user, pid).value))
    else
      var p := RefreshedAt(env, s, pid, c.read);
      var cost := UnitCost(key).Times(count);
      var error := OrderError(Sum(s.queue, ActiveOn(pid)) >= BUILD_QUEUE_MAX_ACTIVE,
                              Meets(UnitPrereqs(key), p.buildings, s.TechsOf(user), 0), p.pools, cost);
      if error.Some? then (s, Failed(error.value))
      else
        var seconds := BuildTime(UnitCost(key), Max(0, Level(p.buildings, RoboticsFactory)),
                                 Max(0, Level(p.buildings, NaniteFactory)),
                                 env.speedEconomy, 1.0) * count;
        var start := StartTime(s.queue, pid, c.write);
        (Enqueue(s, pid, p, s.queue, Item(pid, user, key, 0, count, cost, start, start + seconds as real, false, false),
                 c.write), Ok)
  }

  /** The highest laboratory across the user's planets. */
  function LabOf(planets: seq<Option<Planet>>, user: int): int {
    if planets == [] then 0
    else
      var p := planets[|planets|-1];
      var rest := LabOf(planets[..|planets|-1], user);
      if p.Some? && p.value.owner == user then Max(rest, Level(p.value.buildings, ResearchLab)) else rest
  }

  function StudyError(queue: seq<Item>, user: int, t: TechType, techs: Techs, lab: int, pools: Res,
                      cost: Cost): Option<Error> {
    OrderError(Sum(queue, ActiveResearch(user)) > 0, Meets(TechPrerequisites(t), map[], techs, lab), pools, cost)
  }

  function QueueResearch(env: Env, s: State, user: int, pid: int, t: TechType, c: Clock): (State, Reply) {
    if PlanetError(s, user, pid).Some? then (s, Failed(PlanetError(s, user, pid).value))
    else
      var p := RefreshedAt(env, s, pid, c.read);
      var techs := s.TechsOf(user);
      var lab := LabOf(s.planets, user);
      var target := Level(techs, t) + 1;
      var cost := ResearchLevelCost(t, target);
      var error := StudyError(s.queue, user, t, techs, lab, p.pools, cost);
      if error.Some? then (s, Failed(error.value))
      else
        var seconds := ResearchTime(cost, Max(0, lab), env.speedResearch);
        (Enqueue(s, pid, p, s.queue,
                 Item(pid, user, Study(t), target, 1, cost, c.write, c.write + seconds as real, false, false), c.write),
                 Ok)
  }

  function CancelError(s: State, user: int, qid: int): Option<Error> {
    if !(0 <= qid < |s.queue|) then Some(NotFound)
    else if s.queue[qid].user != user then Some(Forbidden)
    else if s.queue[qid].cancelled || s.queue[qid].applied then Some(AlreadyResolved)
    else if !s.HasPlanet(s.queue[qid].planet) then Some(NoPlanet)
    else None
  }

  /** A full refund to the planet that paid. */
  function Cancel(env: Env, s: State, user: int, qid: int, c: Clock): (State, Reply) {
    if CancelError(s, user, qid).Some? then (s, Failed(CancelError(s, user, qid).value))
    else
      var item := s.queue[qid];
      var p := RefreshedAt(env, s, item.planet, c.read);
      (s.WithPlanet(item.planet, p.(pools := p.pools.Plus(Units(item.cost)), cursor := c.write))
        .(queue := s.queue[qid := item.(cancelled := true)]), Ok)
  }

  // ---- the queue sweep ------------------------------------------------------------------------

  predicate DueItem(i: Item, now: real) { i.Active() && i.finished <= now }

  function Batch(i: Item): int { if i.count <= 0 then 1 else i.count }

  /** The effect of a finished item; None when its planet is gone. */
  function Applied(s: State, i: Item): Option<State> {
    if i.key.Study? then
      var techs := s.TechsOf(i.user);
      Some(s.(techs := s.techs[i.user := techs[i.key.tech := Level(techs, i.key.tech) + 1]]))
    else if !s.HasPlanet(i.planet) then None
    else
      var p := s.PlanetAt(i.planet);
      match i.key
      case Build(b) =>
        Some(s.WithPlanet(i.planet,
                          p.(buildings := p.buildings[b := Level(p.buildings, b) + 1], fieldsUsed := p.fieldsUsed + 1)))
      case Hulls(t) => Some(s.WithPlanet(i.planet, p.(ships := AddCount(p.ships, t, Batch(i)))))
      case Turrets(t) => Some(s.WithPlanet(i.planet, p.(defenses := AddCount(p.defenses, t, Batch(i)))))
  }

  function ApplyItem(s: State, qid: int): State
    requires 0 <= qid < |s.queue|
  {
    var applied := Applied(s, s.queue[qid]);
    if applied.None? then s
    else applied.value.(queue := s.queue[qid := s.queue[qid].(applied := true)])
  }

  // ---- steps and runs ---------------------------------------------------------------------------

  datatype Step =
    | LookAt(pid: int, c: Clock)
    | Send(r: Request, c: Clock)
    | BeginRecall(call: int, user: int, fid: int, c: Clock)
    | EndRecall(call: int, c: Clock)
    | Arrival(fid: int, d: Dice, c: Clock)
    | Homecoming(fid: int, c: Clock)
    | OrderBuilding(user: int, pid: int, b: BuildingType, c: Clock)
    | OrderUnits(user: int, pid: int, key: ItemKey, count: int, c: Clock)
    | OrderResearch(user: int, pid: int, t: TechType, c: Clock)
    | CancelOrder(user: int, qid: int, c: Clock)
    | OpenQueue(user: int, pid: int, c: Clock)
    | Finish(qid: int, c: Clock)

  /** Finished rows are claimed in order of their finish times. */
  ghost predicate NextOnPlanet(s: State, qid: int)
    requires 0 <= qid < |s.queue|
  {
    forall k :: 0 <= k < |s.queue| && s.queue[k].ActiveOn(s.queue[qid].planet)
      ==> s.queue[qid].finished <= s.queue[k].finished
  }

  ghost predicate Enabled(s: State, a: Step) {
    && s.clock <= a.c.read <= a.c.write
    && match a
       case BeginRecall(call, _, _, _) => call !in s.recalls
       case Arrival(fid, _, c) => s.HasFleet(fid) && DueArrival(s.FleetAt(fid), c.read)
       case Homecoming(fid, c) => s.HasFleet(fid) && DueReturn(s.FleetAt(fid), c.read)
       case OrderUnits(_, _, key, _, _) => key.Hulls? || key.Turrets?
       case Finish(qid, c) => 0 <= qid < |s.queue| && NextOnPlanet(s, qid) && DueItem(s.queue[qid], c.read)
       case _ => true
  }

  ghost function Effect(env: Env, s: State, a: Step): State
    requires a.Arrival? || a.Homecoming? ==> s.HasFleet(a.fid)
    requires a.Finish? ==> 0 <= a.qid < |s.queue|
  {
    match a
    case LookAt(pid, c) => Refresh(env, s, pid, c.read)
    case Send(r, c) => Dispatch(env, s, r, c).0
    case BeginRecall(call, user, fid, c) => RecallRead(s, call, user, fid, c.read).0
    case EndRecall(call, _) => RecallWrite(s, call)
    case Arrival(fid, d, c) => Arrive(env, s, fid, d, c)
    case Homecoming(fid, c) => Return(env, s, fid, c)
    case OrderBuilding(user, pid, b, c) => QueueBuilding(env, s, user, pid, b, c).0
    case OrderUnits(user, pid, key, count, c) => QueueUnits(env, s, user, pid, key, count, c).0
    case OrderResearch(user, pid, t, c) => QueueResearch(env, s, user, pid, t, c).0
    case CancelOrder(user, qid, c) => Cancel(env, s, user, qid, c).0
    case OpenQueue(user, pid, _) => ViewQueue(s, user, pid).0
    case Finish(qid, _) => ApplyItem(s, qid)
  }

  ghost function Next(env: Env, s: State, a: Step): State
    requires Enabled(s, a)
  {
    Effect(env, s, a).(clock := a.c.write)
  }

  ghost predicate Legal(env: Env, s: State, run: seq<Step>)
    decreases |run|
  {
    run != [] ==> Enabled(s, run[0]) && Legal(env, Next(env, s, run[0]), run[1..])
  }

  ghost function Final(env: Env, s: State, run: seq<Step>): State
    requires Legal(env, s, run)
    decreases |run|
  {
    if run == [] then s else Final(env, Next(env, s, run[0]), run[1..])
  }
}

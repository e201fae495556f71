/** Speeds, flight times and the odds of being caught (internal/game/fleet.go).  The square
    root is a parameter. */
module Flight {
  import opened Catalog
  import opened Formulas

  /** Ten, twenty or thirty percent more per level of the hull's drive, rounded down. */
  function ShipSpeed(t: ShipType, techs: map<TechType, int>): (v: int)
    ensures v >= ShipStats(t).speed
  {
    var drive := Drive(t);
    var level := Max(0, Level(techs, drive));
    var step := if drive == ImpulseDrive then 0.2 else if drive == HyperspaceDrive then 0.3 else 0.1;
    var speed := ShipStats(t).speed as real;
    assert step * level as real >= 0.0;
    ScaledMonotone(speed, 1.0, 1.0 + step * level as real);
    (speed * (1.0 + step * level as real)).Floor
  }

  /** What a level of a drive adds, in tenths. */
  function Tenths(drive: TechType): nat {
    match drive case ImpulseDrive => 2 case HyperspaceDrive => 3 case _ => 1
  }

  /** In whole numbers: that many tenths more per level of the drive, rounded down. */
  lemma ShipSpeedLaw(t: ShipType, techs: map<TechType, int>)
    ensures var base, level := ShipStats(t).speed, Max(0, Level(techs, Drive(t)));
            10 * ShipSpeed(t, techs) <= base * (10 + Tenths(Drive(t)) * level) < 10 * ShipSpeed(t, techs) + 10
  {
    hide ShipStats, Drive, ShipSpeed;
    var step := Tenths(Drive(t)) as real / 10.0;
    SpeedIs(t, techs, step);
    InTenths(ShipStats(t).speed, Tenths(Drive(t)), Max(0, Level(techs, Drive(t))), step);
  }

  lemma SpeedIs(t: ShipType, techs: map<TechType, int>, step: real)
    requires step == Tenths(Drive(t)) as real / 10.0
    ensures ShipSpeed(t, techs)
            == (ShipStats(t).speed as real * (1.0 + step * Max(0, Level(techs, Drive(t))) as real)).Floor
  {
    hide ShipStats, Drive;
  }

  lemma InTenths(base: nat, tenths: nat, level: nat, step: real)
    requires 10.0 * step == tenths as real
    ensures var v := (base as real * (1.0 + step * level as real)).Floor;
            10 * v <= base * (10 + tenths * level) < 10 * v + 10
  {
    var more := tenths * level;
    assert 10.0 * (step * level as real) == (10.0 * step) * level as real == more as real;
    TenfoldFloor(base, more, step * level as real);
  }

  lemma TenfoldFloor(base: nat, more: nat, x: real)
    requires 10.0 * x == more as real
    ensures var v := (base as real * (1.0 + x)).Floor;
            10 * v <= base * (10 + more) < 10 * v + 10
  {
    assert 1.0 + x == (10 + more) as real / 10.0;
    assert base as real * (1.0 + x) == (base * (10 + more)) as real / 10.0;
  }

  const EMPTY_FLEET_SPEED: int := 5000

  /** The speed of the slowest hull that is there, or the fallback of an empty fleet. */
  ghost predicate IsSlowest(v: int, ships: map<ShipType, int>, techs: map<TechType, int>) {
    && (forall t :: Level(ships, t) > 0 ==> v <= ShipSpeed(t, techs))
    && (|| (v == EMPTY_FLEET_SPEED && forall t :: Level(ships, t) <= 0)
        || (exists t :: Level(ships, t) > 0 && v == ShipSpeed(t, techs)))
  }

  lemma SlowestIsUnique(v: int, w: int, ships: map<ShipType, int>, techs: map<TechType, int>)
    requires IsSlowest(v, ships, techs) && IsSlowest(w, ships, techs)
    ensures v == w
  {
    hide ShipSpeed;
  }

  function Flying(ships: map<ShipType, int>): set<ShipType> { set t | t in ships && ships[t] > 0 }

  ghost function LeastSpeed(hulls: set<ShipType>, techs: map<TechType, int>): (v: int)
    requires hulls != {}
    ensures (forall t :: t in hulls ==> v <= ShipSpeed(t, techs)) && exists t :: t in hulls && v == ShipSpeed(t, techs)
  {
    hide ShipSpeed;
    var t :| t in hulls;
    if hulls == {t} then ShipSpeed(t, techs)
    else
      var rest := LeastSpeed(hulls - {t}, techs);
      if ShipSpeed(t, techs) < rest then ShipSpeed(t, techs) else rest
  }

  ghost function SlowestSpeed(ships: map<ShipType, int>, techs: map<TechType, int>): (v: int)
    ensures IsSlowest(v, ships, techs)
  {
    hide ShipSpeed;
    if Flying(ships) == {} then
      NoneFlies(ships);
      EMPTY_FLEET_SPEED
    else
      FlyingIff(ships);
      LeastSpeed(Flying(ships), techs)
  }

  lemma FlyingIff(ships: map<ShipType, int>)
    ensures forall t :: t in Flying(ships) <==> Level(ships, t) > 0
  {
  }

  lemma NoneFlies(ships: map<ShipType, int>)
    requires Flying(ships) == {}
    ensures forall t :: Level(ships, t) <= 0
  {
    forall t ensures Level(ships, t) <= 0 {
      assert t !in Flying(ships);
    }
  }

  method SlowestShipSpeed(ships: map<ShipType, int>, techs: map<TechType, int>) returns (v: int)
    ensures v == SlowestSpeed(ships, techs)
  {
    hide ShipSpeed;
    var least := -1;
    var todo := ships.Keys;
    while todo != {}
      invariant todo <= ships.Keys && least >= -1
      invariant least < 0 ==> forall t :: t in ships && t !in todo ==> ships[t] <= 0
      invariant least >= 0 ==> exists t :: t in ships && ships[t] > 0 && least == ShipSpeed(t, techs)
      invariant least >= 0 ==> forall t :: t in ships && t !in todo && ships[t] > 0 ==> least <= ShipSpeed(t, techs)
      decreases todo
    {
      var t :| t in todo;
      todo := todo - {t};
      if ships[t] > 0 {
        var s := ShipSpeed(t, techs);
        if least < 0 || s < least {
          least := s;
        }
      }
    }
    v := if least < 0 then EMPTY_FLEET_SPEED else least;
    if least >= 0 {
      var t :| t in ships && ships[t] > 0 && least == ShipSpeed(t, techs);
      assert Level(ships, t) > 0;
    }
    SlowestIsUnique(v, SlowestSpeed(ships, techs), ships, techs);
  }

  function Clamp(x: int, low: int, high: int): int { if x < low then low else if x > high then high else x }

  /** Before the universe's speed: ten seconds, and a root scaled by the throttle. */
  function Journey(distance: int, fleetSpeed: int, speedPercent: int, root: real -> real): real
    requires fleetSpeed > 0
  {
    var throttle := Clamp(speedPercent, 10, 100) as real / 100.0;
    10.0 + (3500.0 / throttle) * root(10.0 * distance as real / fleetSpeed as real)
  }

  /** `root` stands for the square root. */
  function FlightDuration(distance: int, fleetSpeed: int, universeSpeed: int, speedPercent: int,
                          root: real -> real): (seconds: int)
    ensures seconds >= 1
  {
    if fleetSpeed <= 0 then 1
    else Max(1, (Journey(distance, fleetSpeed, speedPercent, root) / Max(1, universeSpeed) as real).Floor)
  }

  ghost predicate RootLike(root: real -> real) {
    (forall x :: root(x) >= 0.0) && (forall x, y :: x <= y ==> root(x) <= root(y))
  }

  lemma JourneyGrows(distance: nat, farther: nat, fleetSpeed: int, slower: int, speedPercent: int, lower: int,
                     root: real -> real)
    requires RootLike(root) && distance <= farther && 0 < slower <= fleetSpeed && lower <= speedPercent
    ensures Journey(distance, fleetSpeed, speedPercent, root) <= Journey(farther, slower, lower, root)
  {
    var x, y := 10.0 * distance as real / fleetSpeed as real, 10.0 * farther as real / slower as real;
    Quicker(10.0 * distance as real, 10.0 * farther as real, slower as real, fleetSpeed as real);
    var p, q := Clamp(speedPercent, 10, 100) as real / 100.0, Clamp(lower, 10, 100) as real / 100.0;
    QuotientFalls(3500.0, q, p);
    Products(3500.0 / p, 3500.0 / q, root(x), root(y));
  }

  /** A longer way, a slower fleet or a lower throttle never shortens the flight. */
  lemma FlightDurationGrows(distance: nat, farther: nat, fleetSpeed: int, slower: int, universeSpeed: int,
                            speedPercent: int, lower: int, root: real -> real)
    requires RootLike(root) && distance <= farther && 0 < slower <= fleetSpeed && lower <= speedPercent
    ensures FlightDuration(distance, fleetSpeed, universeSpeed, speedPercent, root)
            <= FlightDuration(farther, slower, universeSpeed, lower, root)
  {
    hide Journey;
    JourneyGrows(distance, farther, fleetSpeed, slower, speedPercent, lower, root);
    Shares(Journey(distance, fleetSpeed, speedPercent, root), Journey(farther, slower, lower, root),
           Max(1, universeSpeed) as real);
  }

  lemma Squares(a: real, b: real)
    requires 0.0 <= a
    ensures a <= b ==> a * a <= b * b
    ensures a < b ==> a * a < b * b
  {
    if a < b {
      var d := b - a;
      assert b * b == a * a + 2.0 * (a * d) + d * d;
      assert a * d >= 0.0 && d * d > 0.0;
    }
  }

  /** Square roots are exact. */
  ghost predicate RootOf(root: real -> real, x: real) { root(x) >= 0.0 && root(x) * root(x) == x }

  /** How far a root of the way reaches in `n` seconds. */
  function Lap(n: int, universeSpeed: real, percent: real): real { (n as real * universeSpeed - 10.0) * percent }

  /** `d` is the most whole seconds, or one, whose square stays within the way. */
  ghost predicate Covers(d: int, universeSpeed: real, percent: real, way: real) {
    var low, high := Lap(d, universeSpeed, percent), Lap(d + 1, universeSpeed, percent);
    d >= 1 && high > 0.0 && high * high > way && (d == 1 || low <= 0.0 || low * low <= way)
  }

  /** The length of a flight without the root. */
  lemma FlightDurationLaw(distance: nat, fleetSpeed: int, universeSpeed: int, speedPercent: int, root: real -> real)
    requires fleetSpeed > 0 && RootOf(root, 10.0 * distance as real / fleetSpeed as real)
    ensures Covers(FlightDuration(distance, fleetSpeed, universeSpeed, speedPercent, root),
                   Max(1, universeSpeed) as real, Clamp(speedPercent, 10, 100) as real,
                   1_225_000_000_000.0 * distance as real / fleetSpeed as real)
  {
    hide Journey, Clamp, FlightDuration, Covers;
    var u, h := Max(1, universeSpeed) as real, Clamp(speedPercent, 10, 100) as real;
    var j := Journey(distance, fleetSpeed, speedPercent, root);
    var d := FlightDuration(distance, fleetSpeed, universeSpeed, speedPercent, root);
    var x := 350_000.0 * root(10.0 * distance as real / fleetSpeed as real);
    ClampedThrottle(speedPercent);
    DurationIs(distance, fleetSpeed, universeSpeed, speedPercent, root);
    JourneyLaw(distance, fleetSpeed, speedPercent, root);
    DividedLaw(j, u, d);
    WayIs(distance, fleetSpeed, root);
    SquaredLaw(x, j, u, h, d, 1_225_000_000_000.0 * distance as real / fleetSpeed as real);
  }

  lemma DividedLaw(j: real, u: real, d: int)
    requires u > 0.0 && d == Max(1, (j / u).Floor)
    ensures j < (d + 1) as real * u && (d == 1 || d as real * u <= j)
  {
    Whole(j, j / u, u);
  }

  lemma WayIs(distance: nat, fleetSpeed: int, root: real -> real)
    requires fleetSpeed > 0 && RootOf(root, 10.0 * distance as real / fleetSpeed as real)
    ensures var x := 350_000.0 * root(10.0 * distance as real / fleetSpeed as real);
            x * x == 1_225_000_000_000.0 * distance as real / fleetSpeed as real && x >= 0.0
  {
    var q := 10.0 * distance as real / fleetSpeed as real;
    Scale(350_000.0 * root(q), root(q), q);
  }

  lemma DurationIs(distance: nat, fleetSpeed: int, universeSpeed: int, speedPercent: int, root: real -> real)
    requires fleetSpeed > 0
    ensures FlightDuration(distance, fleetSpeed, universeSpeed, speedPercent, root)
            == Max(1, (Journey(distance, fleetSpeed, speedPercent, root) / Max(1, universeSpeed) as real).Floor)
  {
    hide Journey;
  }

  lemma ClampedThrottle(percent: int)
    ensures 10 <= Clamp(percent, 10, 100) <= 100
  {
  }

  lemma Scale(x: real, y: real, q: real)
    requires x == 350_000.0 * y && y * y == q
    ensures x * x == 122_500_000_000.0 * q
  {
    assert x * x == 350_000.0 * 350_000.0 * (y * y);
  }

  /** With `j` the seconds of a journey at single speed, and `d` its whole share. */
  lemma SquaredLaw(x: real, j: real, u: real, h: real, d: int, way: real)
    requires x * x == way && h > 0.0 && (j - 10.0) * h == x >= 0.0
    requires d >= 1 && j < (d + 1) as real * u && (d == 1 || d as real * u <= j)
    ensures Covers(d, u, h, way)
  {
    hide Lap;
    AboveWay(x, j, u, h, d + 1);
    if d != 1 { WithinWay(x, j, u, h, d); }
  }

  lemma AboveWay(x: real, j: real, u: real, h: real, n: int)
    requires h > 0.0 && (j - 10.0) * h == x >= 0.0 && j < n as real * u
    ensures Lap(n, u, h) > 0.0 && Lap(n, u, h) * Lap(n, u, h) > x * x
  {
    var over := n as real * u;
    var more := (over - j) * h;
    assert more > 0.0;
    assert (over - 10.0) * h == x + more;
    Squares(x, x + more);
  }

  lemma WithinWay(x: real, j: real, u: real, h: real, n: int)
    requires h > 0.0 && (j - 10.0) * h == x && n as real * u <= j
    ensures Lap(n, u, h) <= 0.0 || Lap(n, u, h) * Lap(n, u, h) <= x * x
  {
    var under := n as real * u;
    var less := (j - under) * h;
    assert less >= 0.0;
    assert (under - 10.0) * h == x - less;
    if x - less > 0.0 { Squares(x - less, x); }
  }

  lemma JourneyLaw(distance: nat, fleetSpeed: int, speedPercent: int, root: real -> real)
    requires fleetSpeed > 0
    ensures (Journey(distance, fleetSpeed, speedPercent, root) - 10.0) * Clamp(speedPercent, 10, 100) as real
            == 350_000.0 * root(10.0 * distance as real / fleetSpeed as real)
  {
    var h := Clamp(speedPercent, 10, 100) as real;
    var y := root(10.0 * distance as real / fleetSpeed as real);
    assert (3500.0 / (h / 100.0)) * h == 350_000.0;
    assert ((3500.0 / (h / 100.0)) * y) * h == ((3500.0 / (h / 100.0)) * h) * y;
  }

  lemma Products(a: real, b: real, x: real, y: real)
    requires 0.0 <= a <= b && 0.0 <= x <= y
    ensures a * x <= b * y
  {
    ScaledMonotone(a, x, y);
    ScaledMonotone(y, a, b);
  }

  lemma Shares(a: real, b: real, d: real)
    requires a <= b && d > 0.0
    ensures a / d <= b / d
  {
    ScaledMonotone(1.0 / d, a, b);
    assert a / d == (1.0 / d) * a && b / d == (1.0 / d) * b;
  }

  // ---- espionage ---------------------------------------------------------------------------

  /** The probability that the defender destroys the probes. */
  function CounterEspionageChance(probes: int, defender: int, attacker: int): real {
    if attacker > defender then 0.0
    else
      var chance := (probes as real / 5.0) * (0.05 + 0.05 * Max(0, defender - attacker) as real);
      if chance > 1.0 then 1.0 else if chance < 0.0 then 0.0 else chance
  }

  /** A probability; none against an inferior defender, and never lower for more probes or a
      better defender. */
  lemma CounterEspionageChanceGrows(probes: nat, more: nat, defender: int, better: int, attacker: int)
    requires probes <= more && defender <= better
    ensures 0.0 <= CounterEspionageChance(probes, defender, attacker) <= CounterEspionageChance(more, better, attacker)
            <= 1.0
    ensures CounterEspionageChance(probes, defender, attacker) == 0.0 <==> attacker > defender || probes == 0
  {
    var x, y := 0.05 + 0.05 * Max(0, defender - attacker) as real, 0.05 + 0.05 * Max(0, better - attacker) as real;
    if attacker <= defender {
      Products(probes as real / 5.0, more as real / 5.0, x, y);
      if probes > 0 {
        assert (probes as real / 5.0) * x > 0.0;
      }
    } else if attacker <= better {
      Products(0.0, more as real / 5.0, 0.0, y);
    }
  }
}

/** The one-round damage exchange of internal/game/fleet.go.  Shares of damage are exact
    reals; everything that the source keeps as an integer is one. */
module Combat {
  import opened Catalog
  import opened Sums

  datatype UnitName = Hull(ship: ShipType) | Turret(defense: DefenseType)

  datatype CombatUnit = CombatUnit(name: UnitName, count: int, weapon: nat, shield: nat, armor: nat) {
    function HP(): nat { shield + armor }
    /** What BuildUnits produces: a non-empty pool with something to destroy. */
    predicate Sound() { count > 0 && HP() >= 1 }
  }

  type Losses = map<UnitName, int>

  datatype Winner = Attacker | Defender | Draw

  datatype CombatResult = CombatResult(
    attackerRemaining: Losses, defenderShipsRemaining: Losses, defenderDefensesRemaining: Losses,
    attackerDestroyed: Losses, defenderShipsDestroyed: Losses, defenderDefensesDestroyed: Losses,
    attackerTotalAttack: int, defenderTotalAttack: int,
    winner: Winner, debrisMetal: int, debrisCrystal: int)

  // ---- totals -----------------------------------------------------------------

  function AttackOf(u: CombatUnit): int { if u.count > 0 then u.count * u.weapon else 0 }
  function HPOf(u: CombatUnit): int { if u.count > 0 then u.count * u.HP() else 0 }
  function CountOf(u: CombatUnit): int { u.count }

  function TotalAttack(s: seq<CombatUnit>): nat {
    AttackNonNegative(s);
    Sum(s, AttackOf)
  }
  function TotalHP(s: seq<CombatUnit>): int { Sum(s, HPOf) }
  function TotalCount(s: seq<CombatUnit>): int { Sum(s, CountOf) }

  lemma {:induction false} AttackNonNegative(s: seq<CombatUnit>)
    ensures Sum(s, AttackOf) >= 0
  {
    if s != [] {
      AttackNonNegative(s[..|s|-1]);
      var u := s[|s|-1];
      if u.count > 0 {
        MulMonotone(0, u.weapon, u.count);
      }
    }
  }

  method SumAttack(units: array<CombatUnit>) returns (sum: int)
    ensures sum == TotalAttack(units[..])
  {
    sum := 0;
    for i := 0 to units.Length
      invariant sum == TotalAttack(units[..i])
    {
      assert units[..i + 1] == units[..i] + [units[i]];
      SumAppend(units[..i], units[i], AttackOf);
      if units[i].count > 0 {
        sum := sum + units[i].count * units[i].weapon;
      }
    }
    assert units[..] == units[..units.Length];
  }

  method SumHPPool(units: array<CombatUnit>) returns (sum: int)
    ensures sum == TotalHP(units[..])
  {
    sum := 0;
    for i := 0 to units.Length
      invariant sum == TotalHP(units[..i])
    {
      assert units[..i + 1] == units[..i] + [units[i]];
      SumAppend(units[..i], units[i], HPOf);
      if units[i].count > 0 {
        sum := sum + units[i].count * (units[i].shield + units[i].armor);
      }
    }
    assert units[..] == units[..units.Length];
  }

  method SumCounts(units: array<CombatUnit>, start: int) returns (sum: int)
    ensures sum == start + TotalCount(units[..])
  {
    sum := start;
    for i := 0 to units.Length
      invariant sum == start + TotalCount(units[..i])
    {
      assert units[..i + 1] == units[..i] + [units[i]];
      SumAppend(units[..i], units[i], CountOf);
      sum := sum + units[i].count;
    }
    assert units[..] == units[..units.Length];
  }

  // ---- damage -----------------------------------------------------------------

  /** The nested floors of the damage loop, for one pool. */
  function KilledOf(u: CombatUnit, damage: nat, totalHP: int): int
    requires totalHP > 0
  {
    var perUnitHP := if u.HP() < 1 then 1 else u.HP();
    var killed := DamageToPool(u.count * perUnitHP, damage, totalHP) / perUnitHP;
    if killed > u.count then u.count else killed
  }

  function DamageToPool(poolHP: int, damage: nat, totalHP: int): int
    requires totalHP > 0
  {
    var share := poolHP as real / totalHP as real;
    (damage as real * share).Floor
  }

  function After(u: CombatUnit, damage: nat, totalHP: int): CombatUnit {
    if totalHP <= 0 || u.count <= 0 then u else u.(count := u.count - KilledOf(u, damage, totalHP))
  }

  function AfterAll(s: seq<CombatUnit>, damage: nat, totalHP: int): (r: seq<CombatUnit>)
    ensures |r| == |s|
  {
    seq(|s|, i requires 0 <= i < |s| => After(s[i], damage, totalHP))
  }

  function Destroyed(s: seq<CombatUnit>, damage: nat, totalHP: int): Losses {
    if s == [] || totalHP <= 0 then map[]
    else
      var u := s[|s|-1];
      var rest := Destroyed(s[..|s|-1], damage, totalHP);
      if u.count <= 0 then rest else rest[u.name := KilledOf(u, damage, totalHP)]
  }

  /** Walks the pools and decrements their counts in place. */
  method ApplyDamage(units: array<CombatUnit>, totalDamage: nat, totalHP: int) returns (destroyed: Losses)
    modifies units
    ensures units[..] == AfterAll(old(units[..]), totalDamage, totalHP)
    ensures destroyed == Destroyed(old(units[..]), totalDamage, totalHP)
  {
    ghost var before := units[..];
    destroyed := map[];
    if totalHP <= 0 {
      return;
    }
    for i := 0 to units.Length
      invariant forall k :: 0 <= k < i ==> units[k] == After(before[k], totalDamage, totalHP)
      invariant forall k :: i <= k < units.Length ==> units[k] == before[k]
      invariant destroyed == Destroyed(before[..i], totalDamage, totalHP)
    {
      var u := units[i];
      assert before[..i + 1][..i] == before[..i];
      if u.count > 0 {
        var killed := KilledOf(u, totalDamage, totalHP);
        destroyed := destroyed[u.name := killed];
        units[i] := u.(count := u.count - killed);
      }
    }
    assert before[..units.Length] == before;
  }

  // Small facts of arithmetic that the solver needs spelled out.

  lemma MulMonotone(a: int, b: int, c: int)
    requires a <= b && 0 <= c
    ensures a * c <= b * c
  {
    assert (b - a) * c >= 0;
  }

  lemma Distribute(a: int, b: int, c: int)
    ensures (a + b) * c == a * c + b * c && c * (a + b) == c * a + c * b
  {
  }

  lemma CancelFactor(a: int, b: int, c: int)
    requires a * c < b * c && 0 <= c
    ensures a < b
  {
    if b <= a {
      MulMonotone(b, a, c);
    }
  }

  lemma QuotientBounds(n: int, d: int)
    requires d > 0
    ensures (n / d) * d <= n < (n / d + 1) * d
  {
  }

  lemma QuotientIs(n: int, k: int, d: int)
    requires d > 0 && k * d <= n < (k + 1) * d
    ensures n / d == k
  {
    QuotientBounds(n, d);
    CancelFactor(n / d, k + 1, d);
    CancelFactor(k, n / d + 1, d);
  }

  lemma FloorOfQuotient(a: int, b: int)
    requires b > 0
    ensures (a as real / b as real).Floor == a / b
  {
    var q, r := a / b, a % b;
    assert a as real == q as real * b as real + r as real;
    assert a as real / b as real == q as real + r as real / b as real;
    assert 0.0 <= r as real / b as real < 1.0;
  }

  lemma Regroup(a: int, b: int, c: int)
    ensures (a * b) * c == (a * c) * b
  {
  }

  lemma ScaledQuotientBelow(n: nat, h: nat, total: nat, k: int, m: int)
    requires h >= 1 && total >= 1 && k * total <= n && n * h < (m + 1) * total
    ensures k * h <= m
  {
    MulMonotone(k * total, n, h);
    Regroup(k, total, h);
    CancelFactor(k * h, m + 1, total);
  }

  lemma ScaledQuotientAbove(n: nat, h: nat, total: nat, k: int, m: int)
    requires h >= 1 && total >= 1 && n < (k + 1) * total && m * total <= n * h
    ensures m < (k + 1) * h
  {
    MulMonotone(n + 1, (k + 1) * total, h);
    Distribute(n, 1, h);
    Regroup(k + 1, total, h);
    CancelFactor(m, (k + 1) * h, total);
  }

  lemma NestedFloors(n: nat, h: nat, total: nat)
    requires h >= 1 && total >= 1
    ensures ((n * h) / total) / h == n / total
  {
    var k, m := n / total, (n * h) / total;
    QuotientBounds(n, total);
    QuotientBounds(n * h, total);
    ScaledQuotientBelow(n, h, total, k, m);
    ScaledQuotientAbove(n, h, total, k, m);
    QuotientIs(m, k, h);
  }

  lemma ShareOfDamage(damage: nat, amount: int, total: int)
    requires total > 0
    ensures damage as real * (amount as real / total as real) == (damage * amount) as real / total as real
  {
    assert damage as real * amount as real == (damage * amount) as real;
  }

  /** All the nested floors amount to one division: a pool loses its count's share of
      the damage-to-hit-points ratio, rounded down, and never more than it has. */
  lemma KilledClosedForm(u: CombatUnit, damage: nat, totalHP: int)
    requires u.count > 0 && totalHP > 0
    ensures var fair := (damage * u.count) / totalHP;
            KilledOf(u, damage, totalHP) == if fair > u.count then u.count else fair
  {
    var h := if u.HP() < 1 then 1 else u.HP();
    PoolDamageIs(u.count, h, damage, totalHP);
    MulMonotone(0, damage, u.count);
    NestedFloors(damage * u.count, h, totalHP);
  }

  lemma PoolDamageIs(count: int, h: int, damage: nat, totalHP: int)
    requires totalHP > 0
    ensures DamageToPool(count * h, damage, totalHP) == ((damage * count) * h) / totalHP
  {
    ShareOfDamage(damage, count * h, totalHP);
    FloorOfQuotient(damage * (count * h), totalHP);
    assert damage * (count * h) == (damage * count) * h;
  }

  lemma FairShare(damage: nat, count: int, total: int)
    requires count > 0 && total > 0
    ensures var fair := (damage * count) / total;
            0 <= fair && (fair >= count <==> damage >= total)
  {
    var fair := (damage * count) / total;
    MulMonotone(0, damage, count);
    QuotientBounds(damage * count, total);
    CancelFactor(-1, fair, total);
    if damage >= total {
      MulMonotone(total, damage, count);
      assert count * total == total * count;
      CancelFactor(count, fair + 1, total);
    } else {
      MulMonotone(damage + 1, total, count);
      assert (damage + 1) * count == damage * count + count;
      assert count * total == total * count;
      CancelFactor(fair, count, total);
    }
  }

  lemma KilledBounds(u: CombatUnit, damage: nat, totalHP: int)
    requires u.count > 0 && totalHP > 0
    ensures 0 <= KilledOf(u, damage, totalHP) <= u.count
    ensures KilledOf(u, damage, totalHP) == u.count <==> damage >= totalHP
  {
    KilledClosedForm(u, damage, totalHP);
    FairShare(damage, u.count, totalHP);
  }

  ghost predicate AllSound(s: seq<CombatUnit>) { forall u :: u in s ==> u.Sound() }

  lemma {:induction false} TotalsOfSound(s: seq<CombatUnit>)
    requires AllSound(s)
    ensures TotalHP(s) >= 0 && TotalAttack(s) >= 0 && TotalCount(s) >= 0
    ensures s != [] ==> TotalHP(s) > 0 && TotalCount(s) > 0
  {
    if s != [] {
      var u := s[|s|-1];
      assert u.Sound();
      TotalsOfSound(s[..|s|-1]);
      MulMonotone(1, u.HP(), u.count);
      MulMonotone(0, u.weapon, u.count);
    }
  }

  /** All or nothing: damage that reaches the side's total hit points leaves no unit of
      any type; anything less leaves at least one of every type. */
  lemma AllOrNothing(pool: seq<CombatUnit>, damage: nat)
    requires AllSound(pool)
    ensures damage >= TotalHP(pool) ==> forall u :: u in AfterAll(pool, damage, TotalHP(pool)) ==> u.count == 0
    ensures damage < TotalHP(pool) ==> forall u :: u in AfterAll(pool, damage, TotalHP(pool)) ==> u.count >= 1
  {
    TotalsOfSound(pool);
    forall i | 0 <= i < |pool|
      ensures var left := AfterAll(pool, damage, TotalHP(pool))[i].count;
              if damage >= TotalHP(pool) then left == 0 else left >= 1
    {
      assert pool[i] in pool;
      KilledBounds(pool[i], damage, TotalHP(pool));
    }
  }

  lemma PoolLoss(u: CombatUnit, damage: nat, totalHP: int)
    requires u.Sound() && totalHP > 0
    ensures (KilledOf(u, damage, totalHP) * u.HP()) * totalHP <= damage * (u.count * u.HP())
  {
    KilledClosedForm(u, damage, totalHP);
    var fair := (damage * u.count) / totalHP;
    MulMonotone(0, damage, u.count);
    QuotientBounds(damage * u.count, totalHP);
    ScaleBound(KilledOf(u, damage, totalHP), fair, totalHP, damage, u.count, u.HP());
  }

  lemma ScaleBound(k: int, fair: int, total: nat, damage: int, count: int, h: nat)
    requires k <= fair && fair * total <= damage * count
    ensures (k * h) * total <= damage * (count * h)
  {
    MulMonotone(k, fair, total);
    MulMonotone(k * total, damage * count, h);
    assert (k * h) * total == (k * total) * h;
    assert damage * (count * h) == (damage * count) * h;
  }

  lemma {:induction false} DamageTimesPool(s: seq<CombatUnit>, damage: nat, totalHP: int)
    requires AllSound(s) && totalHP > 0
    ensures HPDestroyed(s, damage, totalHP) * totalHP <= damage * TotalHP(s)
  {
    if s != [] {
      var u := s[|s|-1];
      assert u.Sound();
      DamageTimesPool(s[..|s|-1], damage, totalHP);
      PoolLoss(u, damage, totalHP);
      Distribute(HPDestroyed(s[..|s|-1], damage, totalHP), KilledOf(u, damage, totalHP) * u.HP(), totalHP);
      Distribute(TotalHP(s[..|s|-1]), u.count * u.HP(), damage);
    }
  }

  /** Hit points shot off a side. */
  function HPDestroyed(s: seq<CombatUnit>, damage: nat, totalHP: int): int
    requires totalHP > 0
  {
    if s == [] then 0
    else
      var u := s[|s|-1];
      HPDestroyed(s[..|s|-1], damage, totalHP)
      + if u.count > 0 then KilledOf(u, damage, totalHP) * u.HP() else 0
  }

  /** A volley never destroys more hit points than it carries. */
  lemma DamageBound(s: seq<CombatUnit>, damage: nat)
    requires AllSound(s) && s != []
    ensures TotalHP(s) > 0 && HPDestroyed(s, damage, TotalHP(s)) <= damage
  {
    TotalsOfSound(s);
    DamageTimesPool(s, damage, TotalHP(s));
    Distribute(damage, 1, TotalHP(s));
    CancelFactor(HPDestroyed(s, damage, TotalHP(s)), damage + 1, TotalHP(s));
  }

  // ---- building the unit lists --------------------------------------------------

  datatype CombatTech = CombatTech(weapons: nat, shielding: nat, armour: nat)

  /** Ten percent per level, rounded down. */
  function Modified(stat: nat, level: nat): nat { (stat * (10 + level)) / 10 }

  function ShipUnit(t: ShipType, count: int, tech: CombatTech): CombatUnit {
    var s := ShipStats(t);
    CombatUnit(Hull(t), count, Modified(s.weapon, tech.weapons), Modified(s.shield, tech.shielding),
               Modified(s.armor, tech.armour))
  }

  function DefenseUnit(t: DefenseType, count: int, tech: CombatTech): CombatUnit {
    var s := DefenseStats(t);
    CombatUnit(Turret(t), count, Modified(s.weapon, tech.weapons), Modified(s.shield, tech.shielding),
               Modified(s.armor, tech.armour))
  }

  ghost predicate DistinctNames(s: seq<CombatUnit>) {
    forall i, j :: 0 <= i < j < |s| ==> s[i].name != s[j].name
  }

  /** One unit for every non-empty hull, in any order. */
  ghost predicate ListsShips(units: seq<CombatUnit>, ships: map<ShipType, int>, tech: CombatTech) {
    && DistinctNames(units)
    && (forall u :: u in units ==>
          && u.name.Hull? && u.name.ship in ships && ships[u.name.ship] > 0
          && u == ShipUnit(u.name.ship, ships[u.name.ship], tech))
    && (forall t :: t in ships && ships[t] > 0 ==> ShipUnit(t, ships[t], tech) in units)
  }

  ghost predicate ListsDefenses(units: seq<CombatUnit>, defenses: map<DefenseType, int>, tech: CombatTech) {
    && DistinctNames(units)
    && (forall u :: u in units ==>
          && u.name.Turret? && u.name.defense in defenses && defenses[u.name.defense] > 0
          && u == DefenseUnit(u.name.defense, defenses[u.name.defense], tech))
    && (forall t :: t in defenses && defenses[t] > 0 ==> DefenseUnit(t, defenses[t], tech) in units)
  }

  method BuildUnitsFromShips(ships: map<ShipType, int>, tech: CombatTech) returns (units: seq<CombatUnit>)
    ensures ListsShips(units, ships, tech)
  {
    units := [];
    var todo := ships.Keys;
    while todo != {}
      invariant todo <= ships.Keys
      invariant ListsShips(units, map t | t in ships && t !in todo :: ships[t], tech)
      decreases todo
    {
      var t :| t in todo;
      todo := todo - {t};
      if ships[t] > 0 {
        units := units + [ShipUnit(t, ships[t], tech)];
      }
    }
    assert (map t | t in ships && t !in todo :: ships[t]) == ships;
  }

  method BuildUnitsFromDefenses(defenses: map<DefenseType, int>, tech: CombatTech) returns (units: seq<CombatUnit>)
    ensures ListsDefenses(units, defenses, tech)
  {
    units := [];
    var todo := defenses.Keys;
    while todo != {}
      invariant todo <= defenses.Keys
      invariant ListsDefenses(units, map t | t in defenses && t !in todo :: defenses[t], tech)
      decreases todo
    {
      var t :| t in todo;
      todo := todo - {t};
      if defenses[t] > 0 {
        units := units + [DefenseUnit(t, defenses[t], tech)];
      }
    }
    assert (map t | t in defenses && t !in todo :: defenses[t]) == defenses;
  }

  // ---- the whole round ------------------------------------------------------------

  function Counts(s: seq<CombatUnit>): Losses {
    if s == [] then map[] else Counts(s[..|s|-1])[s[|s|-1].name := s[|s|-1].count]
  }

  function Names(s: seq<CombatUnit>): set<UnitName> { set u | u in s :: u.name }

  function Positive(m: Losses): Losses { map n | n in m && m[n] > 0 :: m[n] }
  function Among(m: Losses, names: set<UnitName>): Losses { map n | n in m && n in names :: m[n] }
  function Outside(m: Losses, names: set<UnitName>): Losses { map n | n in m && n !in names :: m[n] }

  /** Thirty percent of the hulls' metal and crystal, rounded down per type; defenses leave none. */
  function MetalDebris(m: Losses): UnitName -> int {
    n => if n in m && m[n] > 0 && n.Hull? then (3 * ShipStats(n.ship).cost.metal * m[n]) / 10 else 0
  }
  function CrystalDebris(m: Losses): UnitName -> int {
    n => if n in m && m[n] > 0 && n.Hull? then (3 * ShipStats(n.ship).cost.crystal * m[n]) / 10 else 0
  }

  function WinnerOf(atkLeft: int, defLeft: int): Winner {
    if atkLeft > 0 && defLeft == 0 then Attacker
    else if defLeft > 0 && atkLeft == 0 then Defender
    else Draw
  }

  /** What is reported once the fire has been exchanged. */
  ghost function Report(atkLeft: seq<CombatUnit>, ships: seq<CombatUnit>, defenses: seq<CombatUnit>,
                  shipsLeft: seq<CombatUnit>, defensesLeft: seq<CombatUnit>,
                  atkDestroyed: Losses, defDestroyed: Losses, atkAttack: int, defAttack: int): CombatResult
  {
    CombatResult(
      Counts(atkLeft), Counts(shipsLeft), Counts(defensesLeft),
      Positive(atkDestroyed),
      Among(Positive(defDestroyed), Names(ships)),
      Among(Outside(Positive(defDestroyed), Names(ships)), Names(defenses)),
      atkAttack, defAttack,
      WinnerOf(TotalCount(atkLeft), TotalCount(shipsLeft) + TotalCount(defensesLeft)),
      SumKeys(atkDestroyed.Keys, MetalDebris(atkDestroyed)) + SumKeys(defDestroyed.Keys, MetalDebris(defDestroyed)),
      SumKeys(atkDestroyed.Keys, CrystalDebris(atkDestroyed)) + SumKeys(defDestroyed.Keys, CrystalDebris(defDestroyed)))
  }

  datatype Totals = Totals(atkAttack: nat, defAttack: nat, atkHP: int, defHP: int)

  function TotalsOf(atk: seq<CombatUnit>, ships: seq<CombatUnit>, defenses: seq<CombatUnit>): Totals {
    Totals(TotalAttack(atk), TotalAttack(ships) + TotalAttack(defenses), TotalHP(atk),
           TotalHP(ships) + TotalHP(defenses))
  }

  ghost function OutcomeFrom(t: Totals, atk: seq<CombatUnit>, ships: seq<CombatUnit>, defenses: seq<CombatUnit>,
                       shipsLeft: seq<CombatUnit>, defensesLeft: seq<CombatUnit>): CombatResult
  {
    Report(AfterAll(atk, t.defAttack, t.atkHP), ships, defenses, shipsLeft, defensesLeft,
           Destroyed(atk, t.defAttack, t.atkHP), Destroyed(ships + defenses, t.atkAttack, t.defHP),
           t.atkAttack, t.defAttack)
  }

  /** The result of a round.  The damage loop runs over a copy of the defenders;
      `shipsLeft` and `defensesLeft` are the defenders' slices as they are re-read
      afterwards. */
  ghost function Outcome(atk: seq<CombatUnit>, ships: seq<CombatUnit>, defenses: seq<CombatUnit>,
                   shipsLeft: seq<CombatUnit>, defensesLeft: seq<CombatUnit>): CombatResult
  {
    OutcomeFrom(TotalsOf(atk, ships, defenses), atk, ships, defenses, shipsLeft, defensesLeft)
  }

  method ReadCounts(units: array<CombatUnit>) returns (m: Losses)
    ensures m == Counts(units[..])
  {
    m := map[];
    for i := 0 to units.Length
      invariant m == Counts(units[..i])
    {
      assert units[..i + 1][..i] == units[..i];
      m := m[units[i].name := units[i].count];
    }
    assert units[..] == units[..units.Length];
  }

  method ReadNames(units: array<CombatUnit>) returns (names: set<UnitName>)
    ensures names == Names(units[..])
  {
    names := {};
    for i := 0 to units.Length
      invariant names == Names(units[..i])
    {
      assert units[..i + 1] == units[..i] + [units[i]];
      names := names + {units[i].name};
    }
    assert units[..] == units[..units.Length];
  }

  method KeepPositive(m: Losses) returns (r: Losses)
    ensures r == Positive(m)
  {
    r := map[];
    var todo := m.Keys;
    while todo != {}
      invariant todo <= m.Keys
      invariant r == map n | n in m && n !in todo && m[n] > 0 :: m[n]
      decreases todo
    {
      var n :| n in todo;
      todo := todo - {n};
      if m[n] > 0 {
        r := r[n := m[n]];
      }
    }
  }

  method SplitLosses(m: Losses, shipNames: set<UnitName>, defenseNames: set<UnitName>)
    returns (ships: Losses, defenses: Losses)
    ensures ships == Among(Positive(m), shipNames)
    ensures defenses == Among(Outside(Positive(m), shipNames), defenseNames)
  {
    ships, defenses := map[], map[];
    var todo := m.Keys;
    while todo != {}
      invariant todo <= m.Keys
      invariant ships == map n | n in m && n !in todo && m[n] > 0 && n in shipNames :: m[n]
      invariant defenses == map n | n in m && n !in todo && m[n] > 0 && n !in shipNames && n in defenseNames :: m[n]
      decreases todo
    {
      var n :| n in todo;
      todo := todo - {n};
      if m[n] > 0 {
        if n in shipNames {
          ships := ships[n := m[n]];
        } else if n in defenseNames {
          defenses := defenses[n := m[n]];
        }
      }
    }
  }

  method AddShipDebris(m: Losses, metal: int, crystal: int) returns (metal': int, crystal': int)
    ensures metal' == metal + SumKeys(m.Keys, MetalDebris(m))
    ensures crystal' == crystal + SumKeys(m.Keys, CrystalDebris(m))
  {
    metal', crystal' := metal, crystal;
    var todo := m.Keys;
    ghost var done: set<UnitName> := {};
    while todo != {}
      invariant done !! todo && done + todo == m.Keys
      invariant metal' == metal + SumKeys(done, MetalDebris(m))
      invariant crystal' == crystal + SumKeys(done, CrystalDebris(m))
      decreases todo
    {
      var n :| n in todo;
      SumKeysAdd(done, n, MetalDebris(m));
      SumKeysAdd(done, n, CrystalDebris(m));
      todo, done := todo - {n}, done + {n};
      if m[n] > 0 && n.Hull? {
        var stat := ShipStats(n.ship);
        metal' := metal' + (3 * stat.cost.metal * m[n]) / 10;
        crystal' := crystal' + (3 * stat.cost.crystal * m[n]) / 10;
      }
    }
    assert done == m.Keys;
  }

  /** Appending the defender slices to a fresh one copies their elements, so the
      originals are not touched by the damage loop; the attackers' slice is. */
  method ExchangeFire(attackerUnits: array<CombatUnit>, defenderShipUnits: array<CombatUnit>,
                      defenderDefenseUnits: array<CombatUnit>,
                      atkAttack: nat, defAttack: nat, atkHP: int, defHP: int)
    returns (atkDestroyed: Losses, defDestroyed: Losses)
    modifies attackerUnits
    ensures attackerUnits[..] == AfterAll(old(attackerUnits[..]), defAttack, atkHP)
    ensures atkDestroyed == Destroyed(old(attackerUnits[..]), defAttack, atkHP)
    ensures defDestroyed == Destroyed(old(defenderShipUnits[..] + defenderDefenseUnits[..]), atkAttack, defHP)
  {
    var pooled := defenderShipUnits[..] + defenderDefenseUnits[..];
    var defenderPool := new CombatUnit[|pooled|](i requires 0 <= i < |pooled| => pooled[i]);
    assert defenderPool[..] == pooled;
    defDestroyed := ApplyDamage(defenderPool, atkAttack, defHP);
    atkDestroyed := ApplyDamage(attackerUnits, defAttack, atkHP);
  }

  method JudgeWinner(attackerUnits: array<CombatUnit>, defenderShipUnits: array<CombatUnit>,
                     defenderDefenseUnits: array<CombatUnit>)
    returns (winner: Winner)
    ensures winner == WinnerOf(TotalCount(attackerUnits[..]),
                               TotalCount(defenderShipUnits[..]) + TotalCount(defenderDefenseUnits[..]))
  {
    var atkLeft := SumCounts(attackerUnits, 0);
    var defLeft := SumCounts(defenderShipUnits, 0);
    defLeft := SumCounts(defenderDefenseUnits, defLeft);
    winner := Draw;
    if atkLeft > 0 && defLeft == 0 {
      winner := Attacker;
    } else if defLeft > 0 && atkLeft == 0 {
      winner := Defender;
    }
  }

  method WriteReport(attackerUnits: array<CombatUnit>, defenderShipUnits: array<CombatUnit>,
                     defenderDefenseUnits: array<CombatUnit>,
                     atkDestroyed: Losses, defDestroyed: Losses, atkAttack: int, defAttack: int)
    returns (res: CombatResult)
    ensures res == Report(attackerUnits[..], defenderShipUnits[..], defenderDefenseUnits[..],
                          defenderShipUnits[..], defenderDefenseUnits[..], atkDestroyed, defDestroyed, atkAttack,
                          defAttack)
  {
    hide Counts, Names, Positive, Among, Outside, TotalCount, MetalDebris, CrystalDebris, WinnerOf;
    var attackerRemaining := ReadCounts(attackerUnits);
    var shipsRemaining := ReadCounts(defenderShipUnits);
    var defensesRemaining := ReadCounts(defenderDefenseUnits);
    var attackerDestroyed := KeepPositive(atkDestroyed);
    var shipNames := ReadNames(defenderShipUnits);
    var defenseNames := ReadNames(defenderDefenseUnits);
    var shipsDestroyed, defensesDestroyed := SplitLosses(defDestroyed, shipNames, defenseNames);
    var winner := JudgeWinner(attackerUnits, defenderShipUnits, defenderDefenseUnits);
    var metal, crystal := AddShipDebris(atkDestroyed, 0, 0);
    metal, crystal := AddShipDebris(defDestroyed, metal, crystal);
    res := CombatResult(attackerRemaining, shipsRemaining, defensesRemaining,
                        attackerDestroyed, shipsDestroyed, defensesDestroyed,
                        atkAttack, defAttack, winner, metal, crystal);
  }

  /** One round on mutable slices.  The defenders are re-read from slices that the
      damage loop never saw, so their remaining counts are the counts they came with. */
  method SimulateCombat(attackerUnits: array<CombatUnit>, defenderShipUnits: array<CombatUnit>,
                        defenderDefenseUnits: array<CombatUnit>)
    returns (res: CombatResult)
    requires attackerUnits != defenderShipUnits && attackerUnits != defenderDefenseUnits
    modifies attackerUnits
    ensures res == old(Outcome(attackerUnits[..], defenderShipUnits[..], defenderDefenseUnits[..],
                               defenderShipUnits[..], defenderDefenseUnits[..]))
  {
    hide Report, TotalAttack, TotalHP, AfterAll, Destroyed;
    ghost var ships, defenses := defenderShipUnits[..], defenderDefenseUnits[..];
    var atkAttack := SumAttack(attackerUnits);
    var shipAttack := SumAttack(defenderShipUnits);
    var defenseAttack := SumAttack(defenderDefenseUnits);
    var defAttack := shipAttack + defenseAttack;
    var shipHP := SumHPPool(defenderShipUnits);
    var defenseHP := SumHPPool(defenderDefenseUnits);
    var atkHP := SumHPPool(attackerUnits);
    var atkDestroyed, defDestroyed := ExchangeFire(
      attackerUnits, defenderShipUnits, defenderDefenseUnits, atkAttack, defAttack, atkHP, shipHP + defenseHP);
    assert defenderShipUnits[..] == ships && defenderDefenseUnits[..] == defenses;
    res := WriteReport(attackerUnits, defenderShipUnits, defenderDefenseUnits, atkDestroyed, defDestroyed, atkAttack,
                       defAttack);
  }
}

/** What a round of combat guarantees, whatever the fleets. */
module CombatProperties {
  import opened Catalog
  import opened Sums
  import opened Combat

  /** The round as the source computes it: defenders are re-read from untouched slices. */
  ghost function AsCoded(atk: seq<CombatUnit>, ships: seq<CombatUnit>, defenses: seq<CombatUnit>): CombatResult {
    Outcome(atk, ships, defenses, ships, defenses)
  }

  /** The round as its comment describes it: defenders are re-read after the damage. */
  ghost function AsDocumented(atk: seq<CombatUnit>, ships: seq<CombatUnit>, defenses: seq<CombatUnit>): CombatResult {
    var t := TotalsOf(atk, ships, defenses);
    Outcome(atk, ships, defenses, AfterAll(ships, t.atkAttack, t.defHP), AfterAll(defenses, t.atkAttack, t.defHP))
  }

  // ---- lists built from maps ------------------------------------------------------

  lemma ListedShipsAreSound(units: seq<CombatUnit>, ships: map<ShipType, int>, tech: CombatTech)
    requires ListsShips(units, ships, tech)
    ensures AllSound(units)
  {
    forall u | u in units ensures u.Sound() {
      var a := ShipStats(u.name.ship).armor;
      ModifiedGrows(a, tech.armour);
    }
  }

  lemma ListedDefensesAreSound(units: seq<CombatUnit>, defenses: map<DefenseType, int>, tech: CombatTech)
    requires ListsDefenses(units, defenses, tech)
    ensures AllSound(units)
  {
    forall u | u in units ensures u.Sound() {
      var a := DefenseStats(u.name.defense).armor;
      ModifiedGrows(a, tech.armour);
    }
  }

  lemma ModifiedGrows(stat: nat, level: nat)
    ensures Modified(stat, level) >= stat
  {
    MulMonotone(10, 10 + level, stat);
    assert stat * (10 + level) >= stat * 10;
  }

  lemma ListsOneMoreShip(units: seq<CombatUnit>, m: map<ShipType, int>, t: ShipType, count: int, tech: CombatTech)
    requires ListsShips(units, m, tech) && t !in m
    ensures ListsShips(units + if count > 0 then [ShipUnit(t, count, tech)] else [], m[t := count], tech)
  {
  }

  lemma ListsOneMoreDefense(units: seq<CombatUnit>, m: map<DefenseType, int>, t: DefenseType, count: int,
                            tech: CombatTech)
    requires ListsDefenses(units, m, tech) && t !in m
    ensures ListsDefenses(units + if count > 0 then [DefenseUnit(t, count, tech)] else [], m[t := count], tech)
  {
  }

  /** One of the lists that a ship map may come out as. */
  ghost function AnyShipList(ships: map<ShipType, int>, tech: CombatTech): (r: seq<CombatUnit>)
    ensures ListsShips(r, ships, tech)
    decreases |ships.Keys|
  {
    if ships == map[] then []
    else
      var t :| t in ships;
      var rest := AnyShipList(ships - {t}, tech);
      ListsOneMoreShip(rest, ships - {t}, t, ships[t], tech);
      assert (ships - {t})[t := ships[t]] == ships;
      rest + if ships[t] > 0 then [ShipUnit(t, ships[t], tech)] else []
  }

  ghost function AnyDefenseList(defenses: map<DefenseType, int>, tech: CombatTech): (r: seq<CombatUnit>)
    ensures ListsDefenses(r, defenses, tech)
    decreases |defenses.Keys|
  {
    if defenses == map[] then []
    else
      var t :| t in defenses;
      var rest := AnyDefenseList(defenses - {t}, tech);
      ListsOneMoreDefense(rest, defenses - {t}, t, defenses[t], tech);
      assert (defenses - {t})[t := defenses[t]] == defenses;
      rest + if defenses[t] > 0 then [DefenseUnit(t, defenses[t], tech)] else []
  }

  // ---- the order of the lists does not matter -----------------------------------------

  ghost predicate Rearranged(s: seq<CombatUnit>, t: seq<CombatUnit>) {
    DistinctNames(s) && DistinctNames(t) && multiset(s) == multiset(t)
  }

  lemma RearrangedElements(s: seq<CombatUnit>, t: seq<CombatUnit>)
    requires Rearranged(s, t)
    ensures forall u :: u in s <==> u in t
  {
    forall u ensures u in s <==> u in t {
      assert u in multiset(s) <==> u in multiset(t);
    }
  }

  lemma RearrangedIf(s: seq<CombatUnit>, t: seq<CombatUnit>)
    requires DistinctNames(s) && DistinctNames(t) && forall u :: u in s <==> u in t
    ensures Rearranged(s, t)
  {
    SameElementsSameMultiset(s, t);
  }

  lemma SumRearranged(s: seq<CombatUnit>, t: seq<CombatUnit>, f: CombatUnit -> int)
    requires Rearranged(s, t)
    ensures Sum(s, f) == Sum(t, f)
  {
    SumPermutation(s, t, f);
  }

  ghost predicate Pooled(s: seq<CombatUnit>, n: UnitName) {
    exists u :: u in s && u.count > 0 && u.name == n
  }

  lemma {:induction false} DestroyedLookup(s: seq<CombatUnit>, damage: nat, totalHP: int)
    requires DistinctNames(s) && totalHP > 0
    ensures var m := Destroyed(s, damage, totalHP);
            && (forall n :: n in m ==> Pooled(s, n))
            && (forall u :: u in s && u.count > 0 ==> u.name in m && m[u.name] == KilledOf(u, damage, totalHP))
  {
    if s != [] {
      var n := |s| - 1;
      DestroyedLookup(s[..n], damage, totalHP);
      assert s == s[..n] + [s[n]];
      forall k | k in Destroyed(s, damage, totalHP) ensures Pooled(s, k) {
        if Pooled(s[..n], k) {
          var u :| u in s[..n] && u.count > 0 && u.name == k;
          assert u in s;
        } else {
          assert s[n] in s;
        }
      }
    }
  }

  lemma DestroyedWithin(s: seq<CombatUnit>, t: seq<CombatUnit>, damage: nat, totalHP: int)
    requires Rearranged(s, t) && totalHP > 0
    ensures var a, b := Destroyed(s, damage, totalHP), Destroyed(t, damage, totalHP);
            forall n :: n in a ==> n in b && a[n] == b[n]
  {
    RearrangedElements(s, t);
    DestroyedLookup(s, damage, totalHP);
    DestroyedLookup(t, damage, totalHP);
    var a, b := Destroyed(s, damage, totalHP), Destroyed(t, damage, totalHP);
    forall n | n in a ensures n in b && a[n] == b[n] {
      assert Pooled(s, n);
      var u :| u in s && u.count > 0 && u.name == n;
      assert u in t;
    }
  }

  lemma DestroyedRearranged(s: seq<CombatUnit>, t: seq<CombatUnit>, damage: nat, totalHP: int)
    requires Rearranged(s, t)
    ensures Destroyed(s, damage, totalHP) == Destroyed(t, damage, totalHP)
  {
    if totalHP > 0 {
      DestroyedWithin(s, t, damage, totalHP);
      DestroyedWithin(t, s, damage, totalHP);
    }
  }

  lemma {:induction false} CountsLookup(s: seq<CombatUnit>)
    requires DistinctNames(s)
    ensures Counts(s).Keys == Names(s)
    ensures forall u :: u in s ==> Counts(s)[u.name] == u.count
  {
    if s != [] {
      var n := |s| - 1;
      CountsLookup(s[..n]);
      assert s == s[..n] + [s[n]];
    }
  }

  lemma CountsRearranged(s: seq<CombatUnit>, t: seq<CombatUnit>)
    requires Rearranged(s, t)
    ensures Counts(s) == Counts(t)
  {
    RearrangedElements(s, t);
    CountsLookup(s);
    CountsLookup(t);
    forall n | n in Counts(s) ensures n in Counts(t) && Counts(s)[n] == Counts(t)[n] {
      var u :| u in s && u.name == n;
    }
    forall n | n in Counts(t) ensures n in Counts(s) {
      var u :| u in t && u.name == n;
    }
  }

  lemma AfterRearranged(s: seq<CombatUnit>, t: seq<CombatUnit>, damage: nat, totalHP: int)
    requires Rearranged(s, t)
    ensures Rearranged(AfterAll(s, damage, totalHP), AfterAll(t, damage, totalHP))
  {
    AfterElements(s, t, damage, totalHP);
    AfterElements(t, s, damage, totalHP);
    RearrangedIf(AfterAll(s, damage, totalHP), AfterAll(t, damage, totalHP));
  }

  lemma AfterElements(s: seq<CombatUnit>, t: seq<CombatUnit>, damage: nat, totalHP: int)
    requires Rearranged(s, t)
    ensures DistinctNames(AfterAll(s, damage, totalHP))
    ensures forall u :: u in AfterAll(s, damage, totalHP) ==> u in AfterAll(t, damage, totalHP)
  {
    RearrangedElements(s, t);
    var a, b := AfterAll(s, damage, totalHP), AfterAll(t, damage, totalHP);
    forall u | u in a ensures u in b {
      var i :| 0 <= i < |a| && a[i] == u;
      assert s[i] in t;
      var j :| 0 <= j < |t| && t[j] == s[i];
      assert b[j] == u;
    }
  }

  lemma PoolRearranged(s: seq<CombatUnit>, t: seq<CombatUnit>, s': seq<CombatUnit>, t': seq<CombatUnit>)
    requires Rearranged(s, s') && Rearranged(t, t') && Names(s) !! Names(t)
    ensures Rearranged(s + t, s' + t')
  {
    assert Names(s') == Names(s) by { SameNames(s, s'); }
    assert Names(t') == Names(t) by { SameNames(t, t'); }
    DistinctConcat(s, t);
    DistinctConcat(s', t');
    assert multiset(s + t) == multiset(s) + multiset(t);
    assert multiset(s' + t') == multiset(s') + multiset(t');
  }

  lemma PoolDestroyedRearranged(s: seq<CombatUnit>, t: seq<CombatUnit>, s': seq<CombatUnit>, t': seq<CombatUnit>,
                                damage: nat, hp: int)
    requires Rearranged(s, s') && Rearranged(t, t') && Names(s) !! Names(t)
    ensures Destroyed(s + t, damage, hp) == Destroyed(s' + t', damage, hp)
  {
    PoolRearranged(s, t, s', t');
    DestroyedRearranged(s + t, s' + t', damage, hp);
  }

  lemma SameNames(s: seq<CombatUnit>, t: seq<CombatUnit>)
    requires Rearranged(s, t)
    ensures Names(s) == Names(t)
  {
    RearrangedElements(s, t);
  }

  lemma DistinctConcat(s: seq<CombatUnit>, t: seq<CombatUnit>)
    requires DistinctNames(s) && DistinctNames(t) && Names(s) !! Names(t)
    ensures DistinctNames(s + t)
  {
    forall i, j | 0 <= i < j < |s + t| ensures (s + t)[i].name != (s + t)[j].name {
      if i < |s| <= j {
        assert s[i].name in Names(s) && t[j - |s|].name in Names(t);
      }
    }
  }

  lemma TotalsRearranged(s: seq<CombatUnit>, t: seq<CombatUnit>)
    requires Rearranged(s, t)
    ensures TotalAttack(s) == TotalAttack(t) && TotalHP(s) == TotalHP(t)
  {
    SumRearranged(s, t, AttackOf);
    SumRearranged(s, t, HPOf);
  }

  lemma AllTotalsRearranged(atk: seq<CombatUnit>, ships: seq<CombatUnit>, defenses: seq<CombatUnit>,
                            atk': seq<CombatUnit>, ships': seq<CombatUnit>, defenses': seq<CombatUnit>)
    requires Rearranged(atk, atk') && Rearranged(ships, ships') && Rearranged(defenses, defenses')
    ensures TotalsOf(atk, ships, defenses) == TotalsOf(atk', ships', defenses')
  {
    TotalsRearranged(atk, atk');
    TotalsRearranged(ships, ships');
    TotalsRearranged(defenses, defenses');
  }

  lemma OutcomeRearranged(t: Totals, atk: seq<CombatUnit>, ships: seq<CombatUnit>, defenses: seq<CombatUnit>,
                          shipsLeft: seq<CombatUnit>, defensesLeft: seq<CombatUnit>,
                          atk': seq<CombatUnit>, ships': seq<CombatUnit>, defenses': seq<CombatUnit>,
                          shipsLeft': seq<CombatUnit>, defensesLeft': seq<CombatUnit>)
    requires Rearranged(atk, atk') && Rearranged(ships, ships') && Rearranged(defenses, defenses')
    requires Rearranged(shipsLeft, shipsLeft') && Rearranged(defensesLeft, defensesLeft')
    requires Names(ships) !! Names(defenses)
    ensures OutcomeFrom(t, atk, ships, defenses, shipsLeft, defensesLeft)
            == OutcomeFrom(t, atk', ships', defenses', shipsLeft', defensesLeft')
  {
    AfterRearranged(atk, atk', t.defAttack, t.atkHP);
    DestroyedRearranged(atk, atk', t.defAttack, t.atkHP);
    PoolDestroyedRearranged(ships, defenses, ships', defenses', t.atkAttack, t.defHP);
    ReportRearranged(AfterAll(atk, t.defAttack, t.atkHP), ships, defenses, shipsLeft, defensesLeft,
                     AfterAll(atk', t.defAttack, t.atkHP), ships', defenses', shipsLeft', defensesLeft',
                     Destroyed(atk, t.defAttack, t.atkHP), Destroyed(ships + defenses, t.atkAttack, t.defHP),
                     t.atkAttack, t.defAttack);
  }

  lemma ReportRearranged(atkLeft: seq<CombatUnit>, ships: seq<CombatUnit>, defenses: seq<CombatUnit>,
                         shipsLeft: seq<CombatUnit>, defensesLeft: seq<CombatUnit>,
                         atkLeft': seq<CombatUnit>, ships': seq<CombatUnit>, defenses': seq<CombatUnit>,
                         shipsLeft': seq<CombatUnit>, defensesLeft': seq<CombatUnit>,
                         atkDestroyed: Losses, defDestroyed: Losses, atkAttack: int, defAttack: int)
    requires Rearranged(atkLeft, atkLeft') && Rearranged(ships, ships') && Rearranged(defenses, defenses')
    requires Rearranged(shipsLeft, shipsLeft') && Rearranged(defensesLeft, defensesLeft')
    ensures Report(atkLeft, ships, defenses, shipsLeft, defensesLeft, atkDestroyed, defDestroyed, atkAttack, defAttack)
            == Report(atkLeft', ships', defenses', shipsLeft', defensesLeft', atkDestroyed, defDestroyed, atkAttack,
                      defAttack)
  {
    CountsRearranged(atkLeft, atkLeft');
    CountsRearranged(shipsLeft, shipsLeft');
    CountsRearranged(defensesLeft, defensesLeft');
    SameNames(ships, ships');
    SameNames(defenses, defenses');
    SumRearranged(atkLeft, atkLeft', CountOf);
    SumRearranged(shipsLeft, shipsLeft', CountOf);
    SumRearranged(defensesLeft, defensesLeft', CountOf);
  }

  lemma Relisted(ships: map<ShipType, int>, tech: CombatTech, a: seq<CombatUnit>, b: seq<CombatUnit>)
    requires ListsShips(a, ships, tech) && ListsShips(b, ships, tech)
    ensures Rearranged(a, b)
  {
    RearrangedIf(a, b);
  }

  lemma RelistedDefenses(defenses: map<DefenseType, int>, tech: CombatTech, a: seq<CombatUnit>, b: seq<CombatUnit>)
    requires ListsDefenses(a, defenses, tech) && ListsDefenses(b, defenses, tech)
    ensures Rearranged(a, b)
  {
    RearrangedIf(a, b);
  }

  /** Fleets come out of hash maps in no particular order.  Whatever the orders, the round
      ends the same: losses, survivors, totals, winner and debris. */
  lemma OrderIndependent(fleet: map<ShipType, int>, ships: map<ShipType, int>, defenses: map<DefenseType, int>,
                         atkTech: CombatTech, defTech: CombatTech,
                         a: seq<CombatUnit>, s: seq<CombatUnit>, d: seq<CombatUnit>,
                         a': seq<CombatUnit>, s': seq<CombatUnit>, d': seq<CombatUnit>)
    requires ListsShips(a, fleet, atkTech) && ListsShips(s, ships, defTech) && ListsDefenses(d, defenses, defTech)
    requires ListsShips(a', fleet, atkTech) && ListsShips(s', ships, defTech) && ListsDefenses(d', defenses, defTech)
    ensures AsCoded(a, s, d) == AsCoded(a', s', d')
    ensures AsDocumented(a, s, d) == AsDocumented(a', s', d')
  {
    Relisted(fleet, atkTech, a, a');
    Relisted(ships, defTech, s, s');
    RelistedDefenses(defenses, defTech, d, d');
    assert Names(s) !! Names(d);
    AllTotalsRearranged(a, s, d, a', s', d');
    OutcomeRearranged(TotalsOf(a, s, d), a, s, d, s, d, a', s', d', s', d');
    DocumentedRearranged(a, s, d, a', s', d');
  }

  lemma DocumentedRearranged(a: seq<CombatUnit>, s: seq<CombatUnit>, d: seq<CombatUnit>,
                             a': seq<CombatUnit>, s': seq<CombatUnit>, d': seq<CombatUnit>)
    requires Rearranged(a, a') && Rearranged(s, s') && Rearranged(d, d') && Names(s) !! Names(d)
    ensures AsDocumented(a, s, d) == AsDocumented(a', s', d')
  {
    AllTotalsRearranged(a, s, d, a', s', d');
    var t := TotalsOf(a, s, d);
    AfterRearranged(s, s', t.atkAttack, t.defHP);
    AfterRearranged(d, d', t.atkAttack, t.defHP);
    OutcomeRearranged(t, a, s, d, AfterAll(s, t.atkAttack, t.defHP), AfterAll(d, t.atkAttack, t.defHP),
                      a', s', d', AfterAll(s', t.atkAttack, t.defHP), AfterAll(d', t.atkAttack, t.defHP));
  }

  // ---- winners -----------------------------------------------------------------------

  /** Survivors of a side hit by `damage`, its total hit points being `hp`. */
  lemma {:induction false} SurvivorsIff(s: seq<CombatUnit>, damage: nat, hp: int)
    requires AllSound(s) && (s != [] ==> hp > 0)
    ensures var left := TotalCount(AfterAll(s, damage, hp));
            left >= 0 && (left == 0 <==> s == [] || damage >= hp)
  {
    if s != [] {
      var n := |s| - 1;
      assert s[n].Sound();
      SurvivorsIff(s[..n], damage, hp);
      assert AfterAll(s, damage, hp)[..n] == AfterAll(s[..n], damage, hp);
      KilledBounds(s[n], damage, hp);
    }
  }

  lemma WinnerFields(atk: seq<CombatUnit>, ships: seq<CombatUnit>, defenses: seq<CombatUnit>)
    ensures var t := TotalsOf(atk, ships, defenses);
            var atkLeft := TotalCount(AfterAll(atk, t.defAttack, t.atkHP));
            && AsCoded(atk, ships, defenses).winner == WinnerOf(atkLeft, TotalCount(ships) + TotalCount(defenses))
            && AsDocumented(atk, ships, defenses).winner
               == WinnerOf(atkLeft,
                           TotalCount(AfterAll(ships, t.atkAttack, t.defHP))
                           + TotalCount(AfterAll(defenses, t.atkAttack, t.defHP)))
  {
  }

  /** The winner the source reports, from the totals alone: the attacker only ever wins
      against an undefended planet. */
  lemma WinnerAsCoded(atk: seq<CombatUnit>, ships: seq<CombatUnit>, defenses: seq<CombatUnit>)
    requires AllSound(atk) && AllSound(ships) && AllSound(defenses)
    ensures AsCoded(atk, ships, defenses).winner
            == if ships == [] && defenses == [] then (if atk != [] then Attacker else Draw)
               else if TotalAttack(ships) + TotalAttack(defenses) >= TotalHP(atk) then Defender
               else Draw
  {
    hide AsCoded, AsDocumented, AfterAll;
    WinnerFields(atk, ships, defenses);
    TotalsOfSound(atk);
    TotalsOfSound(ships);
    TotalsOfSound(defenses);
    SurvivorsIff(atk, TotalAttack(ships) + TotalAttack(defenses), TotalHP(atk));
  }

  lemma DefenderSurvivorsIff(ships: seq<CombatUnit>, defenses: seq<CombatUnit>, damage: nat)
    requires AllSound(ships) && AllSound(defenses)
    ensures var hp := TotalHP(ships) + TotalHP(defenses);
            var left := TotalCount(AfterAll(ships, damage, hp)) + TotalCount(AfterAll(defenses, damage, hp));
            left >= 0 && (left == 0 <==> damage >= hp)
  {
    TotalsOfSound(ships);
    TotalsOfSound(defenses);
    var hp := TotalHP(ships) + TotalHP(defenses);
    SurvivorsIff(ships, damage, hp);
    SurvivorsIff(defenses, damage, hp);
  }

  /** The winner the comment promises, from the two attack totals and the two hit-point totals. */
  lemma WinnerAsDocumented(atk: seq<CombatUnit>, ships: seq<CombatUnit>, defenses: seq<CombatUnit>)
    requires AllSound(atk) && AllSound(ships) && AllSound(defenses)
    ensures var t := TotalsOf(atk, ships, defenses);
            AsDocumented(atk, ships, defenses).winner
            == if t.atkAttack >= t.defHP && t.defAttack < t.atkHP then Attacker
               else if t.defAttack >= t.atkHP && t.atkAttack < t.defHP then Defender
               else Draw
  {
    hide AsCoded, AsDocumented, AfterAll, TotalAttack, TotalCount;
    WinnerFields(atk, ships, defenses);
    TotalsOfSound(atk);
    SurvivorsIff(atk, TotalAttack(ships) + TotalAttack(defenses), TotalHP(atk));
    DefenderSurvivorsIff(ships, defenses, TotalAttack(atk));
  }

  /** The reported winner is the promised one exactly when the attacker's volley does not
      clear a defended planet. */
  lemma WinnerIsAsDocumentedIff(atk: seq<CombatUnit>, ships: seq<CombatUnit>, defenses: seq<CombatUnit>)
    requires AllSound(atk) && AllSound(ships) && AllSound(defenses)
    ensures AsCoded(atk, ships, defenses).winner == AsDocumented(atk, ships, defenses).winner
            <==> (ships == [] && defenses == []) || TotalAttack(atk) < TotalHP(ships) + TotalHP(defenses)
  {
    TotalsOfSound(atk);
    WinnerAsCoded(atk, ships, defenses);
    WinnerAsDocumented(atk, ships, defenses);
  }

  /** Ten battleships wipe out one light fighter, and the report says that it is a draw and that
      the fighter is still there. */
  lemma WinnerCanBeMisreported()
    ensures var atk := [CombatUnit(Hull(Battleship), 10, 1000, 200, 60000)];
            var ships := [CombatUnit(Hull(LightFighter), 1, 50, 10, 4000)];
            && AsCoded(atk, ships, []).winner == Draw && AsDocumented(atk, ships, []).winner == Attacker
            && AsCoded(atk, ships, []).defenderShipsRemaining != AsDocumented(atk, ships, []).defenderShipsRemaining
  {
    var atk := [CombatUnit(Hull(Battleship), 10, 1000, 200, 60000)];
    var ships := [CombatUnit(Hull(LightFighter), 1, 50, 10, 4000)];
    assert atk[..0] == [] && ships[..0] == [];
    assert TotalAttack(atk) == 10000 && TotalHP(atk) == 602000;
    assert TotalAttack(ships) == 50 && TotalHP(ships) == 4010;
    WinnerAsCoded(atk, ships, []);
    WinnerAsDocumented(atk, ships, []);
    RemainingIsAsDocumentedIff(atk, ships, []);
    RemainingFields(atk, ships, []);
    assert ships[0] in ships + [];
  }

  /** The defender's reported survivors are the real ones exactly when no pool of the
      defender loses a unit. */
  lemma RemainingIsAsDocumentedIff(atk: seq<CombatUnit>, ships: seq<CombatUnit>, defenses: seq<CombatUnit>)
    requires AllSound(ships) && AllSound(defenses) && DistinctNames(ships) && DistinctNames(defenses)
    ensures var c, d := AsCoded(atk, ships, defenses), AsDocumented(atk, ships, defenses);
            c.defenderShipsRemaining == d.defenderShipsRemaining
              && c.defenderDefensesRemaining == d.defenderDefensesRemaining
            <==> forall u :: u in ships + defenses ==> TotalAttack(atk) * u.count < TotalHP(ships) + TotalHP(defenses)
  {
    hide AsCoded, AsDocumented, AfterAll, Counts, TotalAttack;
    var damage, hp := TotalAttack(atk), TotalHP(ships) + TotalHP(defenses);
    RemainingFields(atk, ships, defenses);
    assert ships != [] || defenses != [] ==> hp > 0 by {
      TotalsOfSound(ships);
      TotalsOfSound(defenses);
    }
    UntouchedIff(ships, damage, hp);
    UntouchedIff(defenses, damage, hp);
    InEither(ships, defenses);
  }

  lemma RemainingFields(atk: seq<CombatUnit>, ships: seq<CombatUnit>, defenses: seq<CombatUnit>)
    ensures var damage, hp := TotalAttack(atk), TotalHP(ships) + TotalHP(defenses);
            var c, d := AsCoded(atk, ships, defenses), AsDocumented(atk, ships, defenses);
            && c.defenderShipsRemaining == Counts(ships) && c.defenderDefensesRemaining == Counts(defenses)
            && d.defenderShipsRemaining == Counts(AfterAll(ships, damage, hp))
            && d.defenderDefensesRemaining == Counts(AfterAll(defenses, damage, hp))
  {
    hide AfterAll, Counts, TotalAttack, TotalHP;
  }

  lemma InEither(s: seq<CombatUnit>, t: seq<CombatUnit>)
    ensures forall u :: u in s + t <==> u in s || u in t
  {
  }

  lemma CountsAfterLookup(s: seq<CombatUnit>, damage: nat, hp: int)
    requires DistinctNames(s)
    ensures Counts(AfterAll(s, damage, hp)).Keys == Names(s)
    ensures forall u :: u in s ==> Counts(AfterAll(s, damage, hp))[u.name] == After(u, damage, hp).count
  {
    var after := AfterAll(s, damage, hp);
    assert forall i :: 0 <= i < |s| ==> after[i].name == s[i].name;
    assert DistinctNames(after);
    CountsLookup(after);
    assert Names(after) == Names(s) by {
      forall i | 0 <= i < |s| ensures s[i].name in Names(after) && after[i].name in Names(s) {
        assert s[i] in s && after[i] in after;
      }
    }
    forall u | u in s ensures Counts(after)[u.name] == After(u, damage, hp).count {
      var i :| 0 <= i < |s| && s[i] == u;
      assert after[i] in after;
    }
  }

  lemma UntouchedIff(s: seq<CombatUnit>, damage: nat, hp: int)
    requires AllSound(s) && DistinctNames(s) && (s != [] ==> hp > 0)
    ensures Counts(s) == Counts(AfterAll(s, damage, hp)) <==> forall u :: u in s ==> damage * u.count < hp
  {
    CountsLookup(s);
    CountsAfterLookup(s, damage, hp);
    forall u | u in s
      ensures Counts(s)[u.name] == Counts(AfterAll(s, damage, hp))[u.name] <==> damage * u.count < hp
    {
      assert u.Sound();
      KilledNoneIff(u, damage, hp);
    }
  }

  lemma KilledNoneIff(u: CombatUnit, damage: nat, hp: int)
    requires u.count > 0 && hp > 0
    ensures KilledOf(u, damage, hp) == 0 <==> damage * u.count < hp
  {
    KilledClosedForm(u, damage, hp);
    MulMonotone(0, damage, u.count);
    QuotientBounds(damage * u.count, hp);
    var fair := (damage * u.count) / hp;
    if damage * u.count < hp {
      CancelFactor(fair, 1, hp);
    } else {
      assert (0 + 1) * hp == hp;
      CancelFactor(0 + 1, fair + 1, hp);
    }
  }

  // ---- debris ---------------------------------------------------------------------------

  function MetalLost(m: Losses): UnitName -> int {
    n => if n in m && m[n] > 0 && n.Hull? then ShipStats(n.ship).cost.metal * m[n] else 0
  }
  function CrystalLost(m: Losses): UnitName -> int {
    n => if n in m && m[n] > 0 && n.Hull? then ShipStats(n.ship).cost.crystal * m[n] else 0
  }
  function TypesLost(m: Losses): UnitName -> int {
    n => if n in m && m[n] > 0 && n.Hull? then 1 else 0
  }

  /** The debris of one side is at most thirty percent of what its lost hulls had cost,
      and short of that by less than one unit per type lost. */
  lemma DebrisBounds(m: Losses)
    ensures var full, left := 3 * SumKeys(m.Keys, MetalLost(m)), 10 * SumKeys(m.Keys, MetalDebris(m));
            full - 9 * SumKeys(m.Keys, TypesLost(m)) <= left <= full
    ensures var full, left := 3 * SumKeys(m.Keys, CrystalLost(m)), 10 * SumKeys(m.Keys, CrystalDebris(m));
            full - 9 * SumKeys(m.Keys, TypesLost(m)) <= left <= full
  {
    forall n: UnitName
      ensures 3 * MetalLost(m)(n) - 9 * TypesLost(m)(n) <= 10 * MetalDebris(m)(n) <= 3 * MetalLost(m)(n)
      ensures 3 * CrystalLost(m)(n) - 9 * TypesLost(m)(n) <= 10 * CrystalDebris(m)(n) <= 3 * CrystalLost(m)(n)
    {
      if n in m && m[n] > 0 && n.Hull? {
        Tenths(ShipStats(n.ship).cost.metal, m[n]);
        Tenths(ShipStats(n.ship).cost.crystal, m[n]);
      }
    }
    SumOfTenths(m.Keys, MetalLost(m), TypesLost(m), MetalDebris(m));
    SumOfTenths(m.Keys, CrystalLost(m), TypesLost(m), CrystalDebris(m));
  }

  lemma Tenths(cost: int, count: int)
    ensures 3 * (cost * count) - 9 <= 10 * ((3 * cost * count) / 10) <= 3 * (cost * count)
  {
    assert 3 * cost * count == 3 * (cost * count);
  }

  lemma {:induction false} SumOfTenths(keys: set<UnitName>, full: UnitName -> int, types: UnitName -> int,
                                       tenth: UnitName -> int)
    requires forall n :: 3 * full(n) - 9 * types(n) <= 10 * tenth(n) <= 3 * full(n)
    ensures 3 * SumKeys(keys, full) - 9 * SumKeys(keys, types) <= 10 * SumKeys(keys, tenth) <= 3 * SumKeys(keys, full)
    decreases keys
  {
    if keys != {} {
      var n :| n in keys;
      SumKeysTake(keys, n, full);
      SumKeysTake(keys, n, types);
      SumKeysTake(keys, n, tenth);
      SumOfTenths(keys - {n}, full, types, tenth);
    }
  }

  /** The debris field of a round against everything that was shot down on both sides. */
  lemma RoundDebris(atk: seq<CombatUnit>, ships: seq<CombatUnit>, defenses: seq<CombatUnit>)
    ensures var t := TotalsOf(atk, ships, defenses);
            var a, d := Destroyed(atk, t.defAttack, t.atkHP), Destroyed(ships + defenses, t.atkAttack, t.defHP);
            var types := SumKeys(a.Keys, TypesLost(a)) + SumKeys(d.Keys, TypesLost(d));
            var metal := SumKeys(a.Keys, MetalLost(a)) + SumKeys(d.Keys, MetalLost(d));
            var crystal := SumKeys(a.Keys, CrystalLost(a)) + SumKeys(d.Keys, CrystalLost(d));
            var r := AsCoded(atk, ships, defenses);
            && 3 * metal - 9 * types <= 10 * r.debrisMetal <= 3 * metal
            && 3 * crystal - 9 * types <= 10 * r.debrisCrystal <= 3 * crystal
  {
    hide MetalLost, CrystalLost, TypesLost, MetalDebris, CrystalDebris, Destroyed, TotalsOf;
    var t := TotalsOf(atk, ships, defenses);
    DebrisBounds(Destroyed(atk, t.defAttack, t.atkHP));
    DebrisBounds(Destroyed(ships + defenses, t.atkAttack, t.defHP));
  }
}

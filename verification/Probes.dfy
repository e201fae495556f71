/** What becomes of a spy mission, from the levels of both accounts, the number of probes and the
    roll. */
module Probes {
  import opened Wrappers
  import opened Catalog
  import opened Formulas
  import opened World
  import E = Effects
  import F = Flight
  import L = Ledger

  predicate Spies(s: State, a: Step) {
    a.Arrival? && s.HasFleet(a.fid) && s.FleetAt(a.fid).mission == Spy && !TargetGone(s, s.FleetAt(a.fid))
  }

  function ProbeCount(s: State, a: Step): int
    requires Spies(s, a)
  {
    Level(s.FleetAt(a.fid).ships, EspionageProbe)
  }

  function SpyLevel(s: State, a: Step): int
    requires Spies(s, a)
  {
    Level(s.TechsOf(s.FleetAt(a.fid).owner), Espionage)
  }

  function WatchLevel(s: State, a: Step): int
    requires Spies(s, a)
  {
    Level(s.TechsOf(s.PlanetAt(s.FleetAt(a.fid).targetPlanet.value).owner), Espionage)
  }

  /** A percent for every probe and one more for each level that the planet's owner is ahead. */
  predicate IsSeen(s: State, a: Step)
    requires Spies(s, a)
  {
    SpyLevel(s, a) <= WatchLevel(s, a)
    && 100.0 * a.d.roll < (ProbeCount(s, a) * (1 + WatchLevel(s, a) - SpyLevel(s, a))) as real
  }

  lemma SeenIff(probes: int, defender: int, attacker: int, roll: real)
    requires 0.0 <= roll < 1.0
    ensures roll < F.CounterEspionageChance(probes, defender, attacker)
            <==> attacker <= defender && 100.0 * roll < (probes * (1 + defender - attacker)) as real
  {
    if attacker <= defender {
      var lead := defender - attacker;
      assert (probes as real / 5.0) * (0.05 + 0.05 * lead as real) == (probes * (1 + lead)) as real / 100.0 by {
        var x, y := probes as real, lead as real;
        assert (x / 5.0) * (0.05 + 0.05 * y) == x * (1.0 + y) / 100.0;
        assert x * (1.0 + y) == (probes * (1 + lead)) as real;
      }
    }
  }

  /** For a roll from zero up to one: a spy is caught, and gone with everything aboard, exactly when
      it is seen; otherwise it turns back as it is.  The planet is looked at either way, and nothing
      else changes. */
  lemma SpyOutcome(env: Env, s: State, a: Step)
    requires Enabled(s, a) && Spies(s, a) && 0.0 <= a.d.roll < 1.0
    ensures var f, t := s.FleetAt(a.fid), Next(env, s, a);
            && (t.HasFleet(a.fid) <==> !IsSeen(s, a)) && a.fid < |t.fleets|
            && (t.HasFleet(a.fid) ==> t.FleetAt(a.fid).ships == f.ships && t.FleetAt(a.fid).cargo == f.cargo
                                      && E.TurnedAt(f, t, a.fid, a.c.write))
            && t == s.(fleets := s.fleets[a.fid := t.fleets[a.fid]], clock := a.c.write,
                       planets := s.planets[f.targetPlanet.value :=
                                              Some(RefreshedAt(env, s, f.targetPlanet.value, a.c.read))])
  {
    hide RefreshedAt, F.CounterEspionageChance, NextOnPlanet, TurnTime;
    SeenIff(ProbeCount(s, a), WatchLevel(s, a), SpyLevel(s, a), a.d.roll);
  }

  /** A spy whose owner knows more than the planet's always comes back. */
  lemma SuperiorSpiesReturn(env: Env, s: State, a: Step)
    requires Enabled(s, a) && Spies(s, a) && a.d.roll >= 0.0 && SpyLevel(s, a) > WatchLevel(s, a)
    ensures var f, t := s.FleetAt(a.fid), Next(env, s, a);
            t.HasFleet(a.fid) && t.FleetAt(a.fid).status == Returning && t.FleetAt(a.fid).ships == f.ships
            && t.FleetAt(a.fid).cargo == f.cargo
  {
    hide RefreshedAt, NextOnPlanet, TurnTime;
  }

  /** Between two missions with the same roll: what the one with fewer probes, the better spy and
      the worse watch does not survive, the other one does not either. */
  lemma BetterSpiesEscape(env: Env, s: State, a: Step, s': State, b: Step)
    requires Enabled(s, a) && Spies(s, a) && L.Sound(s') && Enabled(s', b) && Spies(s', b)
    requires 0.0 <= a.d.roll == b.d.roll < 1.0 && ProbeCount(s', b) <= ProbeCount(s, a)
    requires SpyLevel(s, a) <= SpyLevel(s', b) && WatchLevel(s', b) <= WatchLevel(s, a)
    ensures Next(env, s, a).HasFleet(a.fid) ==> Next(env, s', b).HasFleet(b.fid)
  {
    hide Next, NextOnPlanet, L.Sound;
    SpyOutcome(env, s, a);
    SpyOutcome(env, s', b);
    ProbesCount(s', b);
    if IsSeen(s', b) {
      var n, m := 1 + WatchLevel(s', b) - SpyLevel(s', b), 1 + WatchLevel(s, a) - SpyLevel(s, a);
      MoreIsMore(ProbeCount(s', b), ProbeCount(s, a), n, m);
    }
  }

  lemma ProbesCount(s: State, a: Step)
    requires L.Sound(s) && Spies(s, a)
    ensures ProbeCount(s, a) >= 0
  {
  }

  lemma MoreIsMore(a: nat, b: nat, n: nat, m: nat)
    requires a <= b && n <= m
    ensures a * n <= b * m
  {
    assert b * m == a * n + (b - a) * m + a * (m - n);
  }
}

/** What the cursor of a planet passes over without paying for it.  A transaction that pays or
    receives writes its own clock reading as the cursor, although its refresh was skipped within
    a second of the last one, or happened at an earlier reading. */
module Forfeits {
  import opened Wrappers
  import opened Catalog
  import opened Sums
  import opened Formulas
  import opened World
  import A = Accrual
  import L = Ledger
  import W = Windows

  type Span = (real, real)

  /** The span between the refresh of a step and its write, which nobody is paid for. */
  ghost function Lost(env: Env, s: State, a: Step, pid: int): Option<Span>
    requires Enabled(s, a)
  {
    if s.HasPlanet(pid) && L.Touched(env, s, a) == Some(pid) && W.Stamps(env, s, a)
       && RefreshedAt(env, s, pid, a.c.read).cursor < a.c.write
    then Some((RefreshedAt(env, s, pid, a.c.read).cursor, a.c.write)) else None
  }

  function AsList(span: Option<Span>): seq<Span> { if span.Some? then [span.value] else [] }

  ghost function Losses(env: Env, s: State, run: seq<Step>, pid: int): seq<Span>
    requires Legal(env, s, run)
    decreases |run|
  {
    if run == [] then [] else AsList(Lost(env, s, run[0], pid)) + Losses(env, Next(env, s, run[0]), run[1..], pid)
  }

  /** Credited and lost spans in the order in which the cursor passes them. */
  ghost function Passed(env: Env, s: State, run: seq<Step>, pid: int): seq<Span>
    requires Legal(env, s, run)
    decreases |run|
  {
    if run == [] then []
    else AsList(W.Window(env, s, run[0], pid))
         + (AsList(Lost(env, s, run[0], pid)) + Passed(env, Next(env, s, run[0]), run[1..], pid))
  }

  function Width(spans: seq<Span>): real { if spans == [] then 0.0 else spans[0].1 - spans[0].0 + Width(spans[1..]) }

  /** Non-empty spans, each beginning where the one before it ends, from `from` up to `to`. */
  ghost predicate Tiles(from: real, to: real, spans: seq<Span>)
    decreases |spans|
  {
    if spans == [] then from == to
    else spans[0].0 == from && from < spans[0].1 && Tiles(spans[0].1, to, spans[1..])
  }

  lemma WidthOf(span: Option<Span>, rest: seq<Span>)
    ensures Width(AsList(span) + rest) == (if span.Some? then span.value.1 - span.value.0 else 0.0) + Width(rest)
  {
    if span.Some? { assert (AsList(span) + rest)[1..] == rest; } else { assert AsList(span) + rest == rest; }
  }

  lemma TilesOf(from: real, to: real, span: Option<Span>, rest: seq<Span>)
    ensures Tiles(from, to, AsList(span) + rest)
            <==> if span.Some? then span.value.0 == from && from < span.value.1 && Tiles(span.value.1, to, rest)
                 else Tiles(from, to, rest)
  {
    if span.Some? { assert (AsList(span) + rest)[1..] == rest; } else { assert AsList(span) + rest == rest; }
  }

  /** Where the cursor stands between the refresh of a step and its write. */
  ghost function Between(env: Env, s: State, a: Step, pid: int): real
    requires Enabled(s, a) && s.HasPlanet(pid)
  {
    if W.Window(env, s, a, pid).Some? then a.c.read else s.PlanetAt(pid).cursor
  }

  /** One step passes its window, then what it loses, and nothing else. */
  lemma StepPasses(env: Env, s: State, a: Step, pid: int)
    requires W.CursorsSound(s) && Enabled(s, a) && s.HasPlanet(pid)
    ensures var t, w, l, mid := Next(env, s, a), W.Window(env, s, a, pid), Lost(env, s, a, pid),
                                Between(env, s, a, pid);
            && W.CursorsSound(t) && t.HasPlanet(pid)
            && (w.Some? ==> w.value == (s.PlanetAt(pid).cursor, mid) && s.PlanetAt(pid).cursor < mid)
            && (w.None? ==> mid == s.PlanetAt(pid).cursor)
            && (l.Some? ==> l.value == (mid, t.PlanetAt(pid).cursor) && mid < t.PlanetAt(pid).cursor)
            && (l.None? ==> t.PlanetAt(pid).cursor == mid)
  {
    hide Effect, L.Touched, W.Stamps, W.CursorsSound, NextOnPlanet;
    assert s.PlanetAt(pid).cursor <= s.clock by { CursorSound(s, pid); }
    W.StepKeepsCursors(env, s, a);
    W.CursorFollows(env, s, a, pid);
    W.RefreshedCursor(env, s.PlanetAt(pid), s.TechsOf(s.PlanetAt(pid).owner), a.c.read);
  }

  lemma CursorSound(s: State, pid: int)
    requires W.CursorsSound(s) && s.HasPlanet(pid)
    ensures s.PlanetAt(pid).cursor <= s.clock
  {
  }

  /** Every instant that the cursor passes on a legal run is credited once or lost once. */
  lemma {:induction false} EveryInstantIsPaidOrLost(env: Env, s: State, run: seq<Step>, pid: int)
    requires W.CursorsSound(s) && Legal(env, s, run) && s.HasPlanet(pid)
    ensures Final(env, s, run).HasPlanet(pid)
    ensures Tiles(s.PlanetAt(pid).cursor, Final(env, s, run).PlanetAt(pid).cursor, Passed(env, s, run, pid))
    decreases |run|
  {
    hide Next, Enabled, W.CursorsSound, Lost, W.Window, Between;
    if run != [] {
      var a, t := run[0], Next(env, s, run[0]);
      StepPasses(env, s, a, pid);
      EveryInstantIsPaidOrLost(env, t, run[1..], pid);
      var end, rest := Final(env, t, run[1..]).PlanetAt(pid).cursor, Passed(env, t, run[1..], pid);
      TilesOf(Between(env, s, a, pid), end, Lost(env, s, a, pid), rest);
      TilesOf(s.PlanetAt(pid).cursor, end, W.Window(env, s, a, pid), AsList(Lost(env, s, a, pid)) + rest);
    }
  }

  /** The books of time: what the cursor moves is what was credited plus what was lost. */
  lemma {:induction false} TimeIsAccountedFor(env: Env, s: State, run: seq<Step>, pid: int)
    requires W.CursorsSound(s) && Legal(env, s, run) && s.HasPlanet(pid)
    ensures Final(env, s, run).HasPlanet(pid)
    ensures Final(env, s, run).PlanetAt(pid).cursor - s.PlanetAt(pid).cursor
            == Width(W.Windows(env, s, run, pid)) + Width(Losses(env, s, run, pid))
    decreases |run|
  {
    hide Next, Enabled, W.CursorsSound, Lost, W.Window, Between;
    if run != [] {
      var a, t := run[0], Next(env, s, run[0]);
      StepPasses(env, s, a, pid);
      TimeIsAccountedFor(env, t, run[1..], pid);
      WidthOf(W.Window(env, s, a, pid), W.Windows(env, t, run[1..], pid));
      WidthOf(Lost(env, s, a, pid), Losses(env, t, run[1..], pid));
    }
  }

  /** The step does not write the cursor after a skipped refresh, nor later than its own refresh. */
  ghost predicate Prompt(env: Env, s: State, a: Step, pid: int)
    requires Enabled(s, a) && s.HasPlanet(pid)
  {
    L.Touched(env, s, a) == Some(pid) && W.Stamps(env, s, a) ==>
      a.c.write == if A.Skips(s.PlanetAt(pid).cursor, a.c.read) then s.PlanetAt(pid).cursor else a.c.read
  }

  ghost predicate AllPrompt(env: Env, s: State, run: seq<Step>, pid: int)
    requires Legal(env, s, run)
    decreases |run|
  {
    run != [] ==>
      && (s.HasPlanet(pid) ==> Prompt(env, s, run[0], pid))
      && AllPrompt(env, Next(env, s, run[0]), run[1..], pid)
  }

  lemma LostIff(env: Env, s: State, a: Step, pid: int)
    requires W.CursorsSound(s) && Enabled(s, a) && s.HasPlanet(pid)
    ensures Lost(env, s, a, pid).None? <==> Prompt(env, s, a, pid)
  {
    hide Effect, L.Touched, W.Stamps, NextOnPlanet;
    W.RefreshedCursor(env, s.PlanetAt(pid), s.TechsOf(s.PlanetAt(pid).owner), a.c.read);
  }

  /** Tiles that begin late leave a gap. */
  lemma LateTiles(from: real, later: real, to: real, spans: seq<Span>)
    requires from < later <= to && A.Disjoint(later, spans)
    ensures !Tiles(from, to, spans)
  {
  }

  lemma {:induction false} CursorAhead(env: Env, s: State, run: seq<Step>, pid: int)
    requires W.CursorsSound(s) && Legal(env, s, run) && s.HasPlanet(pid)
    ensures Final(env, s, run).HasPlanet(pid) && s.PlanetAt(pid).cursor <= Final(env, s, run).PlanetAt(pid).cursor
    decreases |run|
  {
    hide Next, Enabled, W.CursorsSound, Lost, W.Window, Between;
    if run != [] {
      StepPasses(env, s, run[0], pid);
      CursorAhead(env, Next(env, s, run[0]), run[1..], pid);
    }
  }

  /** The credited windows alone cover all the time that the cursor passes if and only if no
      step writes the cursor after a skipped refresh or later than its own refresh. */
  lemma {:induction false} PaidInFullIff(env: Env, s: State, run: seq<Step>, pid: int)
    requires W.CursorsSound(s) && Legal(env, s, run) && s.HasPlanet(pid)
    ensures Final(env, s, run).HasPlanet(pid)
    ensures Tiles(s.PlanetAt(pid).cursor, Final(env, s, run).PlanetAt(pid).cursor, W.Windows(env, s, run, pid))
            <==> AllPrompt(env, s, run, pid)
    decreases |run|
  {
    hide Next, Enabled, W.CursorsSound, Lost, W.Window, Between, Prompt, A.Disjoint;
    CursorAhead(env, s, run, pid);
    if run != [] {
      var a, t := run[0], Next(env, s, run[0]);
      StepPasses(env, s, a, pid);
      LostIff(env, s, a, pid);
      PaidInFullIff(env, t, run[1..], pid);
      CursorAhead(env, t, run[1..], pid);
      W.NoInstantIsPaidTwice(env, t, run[1..], pid);
      var end, rest := Final(env, t, run[1..]).PlanetAt(pid).cursor, W.Windows(env, t, run[1..], pid);
      TilesOf(s.PlanetAt(pid).cursor, end, W.Window(env, s, a, pid), rest);
      if Lost(env, s, a, pid).Some? {
        LateTiles(Between(env, s, a, pid), t.PlanetAt(pid).cursor, end, rest);
      }
    }
  }

  // ---- two orders half a second apart --------------------------------------------------------------

  function Rich(): Planet {
    Planet(1, Coord(1, 1, 5), Res(5000.0, 5000.0, 5000.0), 0.0, map[], map[], map[], 0, 163, 0, 40)
  }

  function Start(): State { State([Some(Rich())], [], [], map[], map[], 0.0) }
  function First(): Step { OrderBuilding(1, 0, BuildingType.MetalMine, Clock(2.0, 2.0)) }
  function Second(): Step { OrderBuilding(1, 0, BuildingType.CrystalMine, Clock(2.5, 2.5)) }

  /** Bare planets hold ten thousand of everything. */
  ghost predicate Roomy(env: Env) {
    forall p: Planet :: p.buildings == map[] ==> env.capacity(p) == Res(10000.0, 10000.0, 10000.0)
  }

  lemma UniverseIsRoomy(speedEconomy: Speed, speedResearch: Speed, speedFleet: int, galaxies: int, systems: int,
                        silo: nat -> nat, root: real -> real)
    ensures Roomy(Universe(speedEconomy, speedResearch, speedFleet, galaxies, systems, silo, root))
  {
  }

  lemma MineCosts()
    ensures BuildingLevelCost(BuildingType.MetalMine, 1) == Cost(60, 15, 0)
    ensures BuildingLevelCost(BuildingType.CrystalMine, 1) == Cost(48, 24, 0)
  {
  }

  lemma FewRows(queue: seq<Item>, pid: int, b: BuildingType)
    requires |queue| <= 1 && forall k :: 0 <= k < |queue| ==> queue[k].key != Build(b)
    ensures Sum(queue, ActiveOn(pid)) <= 1 && PendingLevel(queue, pid, b, 0) == 0
  {
    if queue != [] { assert queue[..0] == []; }
  }

  /** A first level of a mine can be ordered by whoever can pay for it. */
  lemma MineIsOrdered(env: Env, s: State, pid: int, b: BuildingType, c: Clock)
    requires b == BuildingType.MetalMine || b == BuildingType.CrystalMine
    requires s.HasPlanet(pid) && s.PlanetAt(pid).buildings == map[] && |s.queue| <= 1
    requires forall k :: 0 <= k < |s.queue| ==> s.queue[k].key != Build(b)
    requires RefreshedAt(env, s, pid, c.read).buildings == map[]
             && RefreshedAt(env, s, pid, c.read).owner == s.PlanetAt(pid).owner
    requires RefreshedAt(env, s, pid, c.read).pools.Affords(BuildingLevelCost(b, 1))
    ensures var (t, reply) := QueueBuilding(env, s, s.PlanetAt(pid).owner, pid, b, c);
            && reply.Ok? && t.HasPlanet(pid)
            && t.PlanetAt(pid) == Paid(RefreshedAt(env, s, pid, c.read), BuildingLevelCost(b, 1), c.write)
            && |t.queue| == |s.queue| + 1 && t.queue[|s.queue|].key == Build(b)
  {
    hide RefreshedAt, BuildingLevelCost, BuildTime, EarlyDivisor, StartTime, PendingLevel, Sum;
    var p := RefreshedAt(env, s, pid, c.read);
    var queue := Repaired(s.queue, pid, map[]);
    FewRows(queue, pid, b);
    assert UpgradeCost(env, b, 1, p, s.TechsOf(p.owner)) == BuildingLevelCost(b, 1);
  }

  /** The second order is refreshed within a second of the first, and moves the cursor on. */
  ghost predicate LosesHalfASecond(env: Env, run: seq<Step>) {
    && Legal(env, Start(), run) && Final(env, Start(), run).HasPlanet(0)
    && Final(env, Start(), run).PlanetAt(0).cursor == 2.5
    && W.Windows(env, Start(), run, 0) == [(0.0, 2.0)] && Losses(env, Start(), run, 0) == [(2.0, 2.5)]
  }

  lemma StartRefreshed(env: Env)
    requires Roomy(env)
    ensures var p := RefreshedAt(env, Start(), 0, 2.0);
            && p == Rich().(pools := p.pools, cursor := 2.0)
            && p.pools.metal >= 5000.0 && p.pools.crystal >= 5000.0 && p.pools.deuterium >= 5000.0
  {
    hide A.Gain;
    var r := env.report(Rich(), map[]).perHour;
    A.GainAdds(r.metal, 2.0, 0.0);
    A.GainAdds(r.crystal, 2.0, 0.0);
    A.GainAdds(r.deuterium, 2.0, 0.0);
  }

  /** Between the two orders. */
  ghost predicate IsPaidUp(s: State) {
    && s.HasPlanet(0) && s.clock == 2.0 && |s.queue| == 1 && s.queue[0].key == Build(BuildingType.MetalMine)
    && var p := s.PlanetAt(0);
    p.owner == 1 && p.buildings == map[] && p.cursor == 2.0 && p.pools.metal >= 4000.0 && p.pools.crystal >= 4000.0
      && p.pools.deuterium >= 4000.0
  }

  lemma FirstOrder(env: Env)
    requires Roomy(env)
    ensures Enabled(Start(), First()) && IsPaidUp(Next(env, Start(), First()))
    ensures W.Window(env, Start(), First(), 0) == Some((0.0, 2.0)) && Lost(env, Start(), First(), 0).None?
  {
    hide QueueBuilding, RefreshedAt, BuildingLevelCost;
    StartRefreshed(env);
    MineCosts();
    MineIsOrdered(env, Start(), 0, BuildingType.MetalMine, Clock(2.0, 2.0));
  }

  lemma SecondOrder(env: Env, s: State)
    requires IsPaidUp(s)
    ensures Enabled(s, Second())
    ensures var t := Next(env, s, Second());
            t.HasPlanet(0) && t.PlanetAt(0).cursor == 2.5
    ensures W.Window(env, s, Second(), 0).None? && Lost(env, s, Second(), 0) == Some((2.0, 2.5))
  {
    hide QueueBuilding, BuildingLevelCost;
    MineCosts();
    MineIsOrdered(env, s, 0, BuildingType.CrystalMine, Clock(2.5, 2.5));
  }

  lemma OrdersLoseTime(env: Env)
    requires Roomy(env)
    ensures LosesHalfASecond(env, [First(), Second()])
  {
    hide First, Second, Enabled, Next, Start, W.Window, Lost;
    FirstOrder(env);
    var t := Next(env, Start(), First());
    SecondOrder(env, t);
    assert [First(), Second()][1..] == [Second()] && [Second()][1..] == [];
    assert Legal(env, t, [Second()]);
  }

  /** In every universe: of two orders half a second apart the second forfeits that half second. */
  lemma TwoOrdersLoseTime(speedEconomy: Speed, speedResearch: Speed, speedFleet: int, galaxies: int, systems: int,
                          silo: nat -> nat, root: real -> real)
    ensures LosesHalfASecond(Universe(speedEconomy, speedResearch, speedFleet, galaxies, systems, silo, root),
                             [First(), Second()])
  {
    hide LosesHalfASecond, Roomy, Universe;
    UniverseIsRoomy(speedEconomy, speedResearch, speedFleet, galaxies, systems, silo, root);
    OrdersLoseTime(Universe(speedEconomy, speedResearch, speedFleet, galaxies, systems, silo, root));
  }
}

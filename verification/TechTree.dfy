/** The prerequisite checks (internal/game/tech_tree.go), and why everything that was ever
    built or researched still meets its prerequisites. */
module TechTree {
  import opened Wrappers
  import opened Catalog
  import opened Sums
  import opened Formulas
  import opened World
  import Q = QueueSafety

  // ---- the checks ---------------------------------------------------------------------------

  /** The prerequisites that are not met, in the order of the table. */
  function Unmet(reqs: seq<Prereq>, buildings: map<BuildingType, int>, techs: Techs, lab: int): seq<Prereq> {
    if reqs == [] then []
    else
      var n := |reqs| - 1;
      Unmet(reqs[..n], buildings, techs, lab) + if Satisfied(reqs[n], buildings, techs, lab) then [] else [reqs[n]]
  }

  lemma {:induction false} NothingUnmetIff(reqs: seq<Prereq>, buildings: map<BuildingType, int>, techs: Techs, lab: int)
    ensures Unmet(reqs, buildings, techs, lab) == [] <==> Meets(reqs, buildings, techs, lab)
  {
    if reqs != [] {
      var n := |reqs| - 1;
      NothingUnmetIff(reqs[..n], buildings, techs, lab);
      assert reqs == reqs[..n] + [reqs[n]];
    }
  }

  method CheckBuildingPrereqs(building: BuildingType, levels: map<BuildingType, int>, techs: Techs)
    returns (ok: bool, missing: seq<Prereq>)
    ensures missing == Unmet(BuildingPrerequisites(building), levels, techs, 0)
    ensures ok <==> Meets(BuildingPrerequisites(building), levels, techs, 0)
  {
    var reqs := BuildingPrerequisites(building);
    missing := [];
    for i := 0 to |reqs|
      invariant missing == Unmet(reqs[..i], levels, techs, 0)
    {
      assert reqs[..i + 1][..i] == reqs[..i];
      var req := reqs[i];
      if req.NeedsBuilding? {
        if Level(levels, req.building) < req.level { missing := missing + [req]; }
      } else if req.NeedsTech? {
        if Level(techs, req.tech) < req.level { missing := missing + [req]; }
      }
    }
    assert reqs[..|reqs|] == reqs;
    NothingUnmetIff(reqs, levels, techs, 0);
    ok := |missing| == 0;
  }

  method CheckResearchPrereqs(tech: TechType, lab: int, techs: Techs) returns (ok: bool, missing: seq<Prereq>)
    ensures missing == Unmet(TechPrerequisites(tech), map[], techs, lab)
    ensures ok <==> Meets(TechPrerequisites(tech), map[], techs, lab)
  {
    var reqs := TechPrerequisites(tech);
    missing := [];
    for i := 0 to |reqs|
      invariant missing == Unmet(reqs[..i], map[], techs, lab)
    {
      assert reqs[..i + 1][..i] == reqs[..i];
      var req := reqs[i];
      if req.NeedsLab? {
        if lab < req.level { missing := missing + [req]; }
      } else if req.NeedsTech? && Level(techs, req.tech) < req.level {
        missing := missing + [req];
      }
    }
    assert reqs[..|reqs|] == reqs;
    NothingUnmetIff(reqs, map[], techs, lab);
    ok := |missing| == 0;
  }

  /** Ships and defenses are checked alike, against the shipyard of the planet. */
  method CheckUnitPrereqs(key: ItemKey, levels: map<BuildingType, int>, techs: Techs)
    returns (ok: bool, missing: seq<Prereq>)
    requires key.Hulls? || key.Turrets?
    ensures missing == Unmet(UnitPrereqs(key), levels, techs, 0)
    ensures ok <==> Meets(UnitPrereqs(key), levels, techs, 0)
  {
    var reqs := UnitPrereqs(key);
    var shipyard := Level(levels, Shipyard);
    missing := [];
    for i := 0 to |reqs|
      invariant missing == Unmet(reqs[..i], levels, techs, 0)
    {
      assert reqs[..i + 1][..i] == reqs[..i];
      var req := reqs[i];
      if req.NeedsShipyard? {
        if shipyard < req.level { missing := missing + [req]; }
      } else if req.NeedsTech? && Level(techs, req.tech) < req.level {
        missing := missing + [req];
      }
    }
    assert reqs[..|reqs|] == reqs;
    NothingUnmetIff(reqs, levels, techs, 0);
    ok := |missing| == 0;
  }

  // ---- levels never fall ------------------------------------------------------------------------

  ghost predicate AtLeast<K(!new)>(m: map<K, int>, n: map<K, int>) { forall k :: Level(m, k) <= Level(n, k) }

  /** Planets stay with their owners, and no level of a building or a technology falls. */
  ghost predicate Grows(s: State, t: State) {
    && (forall pid :: s.HasPlanet(pid) ==>
          t.HasPlanet(pid) && t.PlanetAt(pid).owner == s.PlanetAt(pid).owner
          && AtLeast(s.PlanetAt(pid).buildings, t.PlanetAt(pid).buildings))
    && (forall user :: AtLeast(s.TechsOf(user), t.TechsOf(user)))
  }

  /** A laboratory of the account is as good as its best. */
  lemma {:induction false} LabIsBest(planets: seq<Option<Planet>>, user: int)
    ensures LabOf(planets, user) >= 0
    ensures forall k :: 0 <= k < |planets| && planets[k].Some? && planets[k].value.owner == user
                        ==> Level(planets[k].value.buildings, ResearchLab) <= LabOf(planets, user)
    ensures LabOf(planets, user) > 0 ==>
              exists k :: 0 <= k < |planets| && planets[k].Some? && planets[k].value.owner == user
                          && Level(planets[k].value.buildings, ResearchLab) == LabOf(planets, user)
  {
    if planets != [] {
      var n := |planets| - 1;
      LabIsBest(planets[..n], user);
      var p := planets[n];
      if LabOf(planets, user) > 0 && LabOf(planets, user) == LabOf(planets[..n], user) {
        var k :| 0 <= k < n && planets[..n][k].Some? && planets[..n][k].value.owner == user
                 && Level(planets[..n][k].value.buildings, ResearchLab) == LabOf(planets[..n], user);
        assert planets[k] == planets[..n][k];
      }
    }
  }

  /** The account-wide laboratory level, a maximum over planets, never falls either. */
  lemma LabGrows(s: State, t: State, user: int)
    requires Grows(s, t)
    ensures LabOf(s.planets, user) <= LabOf(t.planets, user)
  {
    LabIsBest(s.planets, user);
    LabIsBest(t.planets, user);
    if LabOf(s.planets, user) > 0 {
      var k :| 0 <= k < |s.planets| && s.planets[k].Some? && s.planets[k].value.owner == user
               && Level(s.planets[k].value.buildings, ResearchLab) == LabOf(s.planets, user);
      assert s.HasPlanet(k);
      assert Level(s.PlanetAt(k).buildings, ResearchLab) <= Level(t.PlanetAt(k).buildings, ResearchLab);
    }
  }

  lemma MeetsGrows(reqs: seq<Prereq>, b: map<BuildingType, int>, x: Techs, lab: int, b': map<BuildingType, int>,
                   x': Techs, lab': int)
    requires Meets(reqs, b, x, lab) && AtLeast(b, b') && AtLeast(x, x') && lab <= lab'
    ensures Meets(reqs, b', x', lab')
  {
    forall r | r in reqs ensures Satisfied(r, b', x', lab') {
      assert Satisfied(r, b, x, lab);
    }
  }

  // ---- closure -----------------------------------------------------------------------------------

  /** What a queue item still has to show. */
  ghost predicate ItemAllowed(s: State, i: Item) {
    s.HasPlanet(i.planet) &&
    match i.key
    case Build(b) =>
      Meets(BuildingPrerequisites(b), s.PlanetAt(i.planet).buildings, s.TechsOf(s.PlanetAt(i.planet).owner), 0)
    case Study(x) => Meets(TechPrerequisites(x), map[], s.TechsOf(i.user), LabOf(s.planets, i.user))
    case _ => Meets(UnitPrereqs(i.key), s.PlanetAt(i.planet).buildings, s.TechsOf(i.user), 0)
  }

  ghost predicate BuiltAllowed(s: State, pid: int, b: BuildingType)
    requires s.HasPlanet(pid)
  {
    var p := s.PlanetAt(pid);
    Level(p.buildings, b) >= 1 ==> Meets(BuildingPrerequisites(b), p.buildings, s.TechsOf(p.owner), 0)
  }

  ghost predicate KnownAllowed(s: State, user: int, x: TechType) {
    Level(s.TechsOf(user), x) >= 1 ==> Meets(TechPrerequisites(x), map[], s.TechsOf(user), LabOf(s.planets, user))
  }

  /** Everything built, researched or queued meets its prerequisites as things stand. */
  ghost predicate Closed(s: State) {
    && (forall pid, b :: s.HasPlanet(pid) ==> BuiltAllowed(s, pid, b))
    && (forall user, x :: KnownAllowed(s, user, x))
    && (forall i :: i in s.queue ==> ItemAllowed(s, i))
  }

  lemma ItemStaysAllowed(s: State, t: State, i: Item)
    requires Grows(s, t) && ItemAllowed(s, i)
    ensures ItemAllowed(t, i)
  {
    hide Meets;
    LabGrows(s, t, i.user);
    var p, q := s.PlanetAt(i.planet), t.PlanetAt(i.planet);
    match i.key
    case Build(b) =>
      MeetsGrows(BuildingPrerequisites(b), p.buildings, s.TechsOf(p.owner), 0, q.buildings, t.TechsOf(p.owner), 0);
    case Study(x) =>
      MeetsGrows(TechPrerequisites(x), map[], s.TechsOf(i.user), LabOf(s.planets, i.user),
                 map[], t.TechsOf(i.user), LabOf(t.planets, i.user));
    case _ => MeetsGrows(UnitPrereqs(i.key), p.buildings, s.TechsOf(i.user), 0, q.buildings, t.TechsOf(i.user), 0);
  }

  lemma BuiltStaysAllowed(s: State, t: State, pid: int, b: BuildingType)
    requires Grows(s, t) && s.HasPlanet(pid) && BuiltAllowed(s, pid, b)
    requires Level(t.PlanetAt(pid).buildings, b) == Level(s.PlanetAt(pid).buildings, b)
    ensures BuiltAllowed(t, pid, b)
  {
    hide Meets;
    var p, q := s.PlanetAt(pid), t.PlanetAt(pid);
    if Level(p.buildings, b) >= 1 {
      MeetsGrows(BuildingPrerequisites(b), p.buildings, s.TechsOf(p.owner), 0, q.buildings, t.TechsOf(p.owner), 0);
    }
  }

  lemma KnownStaysAllowed(s: State, t: State, user: int, x: TechType)
    requires Grows(s, t) && KnownAllowed(s, user, x) && Level(t.TechsOf(user), x) == Level(s.TechsOf(user), x)
    ensures KnownAllowed(t, user, x)
  {
    hide Meets;
    LabGrows(s, t, user);
    if Level(s.TechsOf(user), x) >= 1 {
      MeetsGrows(TechPrerequisites(x), map[], s.TechsOf(user), LabOf(s.planets, user), map[], t.TechsOf(user),
                 LabOf(t.planets, user));
    }
  }

  predicate Builds(done: Option<Item>, pid: int, b: BuildingType) {
    done.Some? && done.value.planet == pid && done.value.key == Build(b)
  }
  predicate Teaches(done: Option<Item>, user: int, x: TechType) {
    done.Some? && done.value.user == user && done.value.key == Study(x)
  }

  /** What a step may do to levels and queue: new planets are bare, and a level that rises
      is that of the finished item. */
  ghost predicate Develops(s: State, t: State, done: Option<Item>) {
    && Grows(s, t)
    && (forall pid :: t.HasPlanet(pid) && !s.HasPlanet(pid) ==> t.PlanetAt(pid).buildings == map[])
    && (forall pid, b :: s.HasPlanet(pid) && !Builds(done, pid, b)
                         ==> Level(t.PlanetAt(pid).buildings, b) == Level(s.PlanetAt(pid).buildings, b))
    && (forall user, x :: !Teaches(done, user, x)
                          ==> Level(t.TechsOf(user), x) == Level(s.TechsOf(user), x))
  }

  lemma DevelopingKeepsClosed(s: State, t: State, done: Option<Item>)
    requires Closed(s) && Develops(s, t, done) && (done.Some? ==> ItemAllowed(s, done.value))
    requires forall i :: i in t.queue ==> ItemAllowed(s, i)
    ensures Closed(t)
  {
    hide Meets;
    if done.Some? { ItemStaysAllowed(s, t, done.value); }
    forall i | i in t.queue ensures ItemAllowed(t, i) {
      ItemStaysAllowed(s, t, i);
    }
    forall pid, b | t.HasPlanet(pid) ensures BuiltAllowed(t, pid, b) {
      if s.HasPlanet(pid) && !Builds(done, pid, b) {
        assert BuiltAllowed(s, pid, b);
        BuiltStaysAllowed(s, t, pid, b);
      }
    }
    forall user, x ensures KnownAllowed(t, user, x) {
      if !Teaches(done, user, x) {
        assert KnownAllowed(s, user, x);
        KnownStaysAllowed(s, t, user, x);
      }
    }
  }

  // ---- every step, every run -------------------------------------------------------------------------

  lemma EstateDevelops(s: State, t: State)
    requires Q.SameEstate(s, t) && t.techs == s.techs
    ensures Develops(s, t, None)
  {
  }

  lemma FinishDevelops(s: State, qid: int)
    requires 0 <= qid < |s.queue| && (s.queue[qid].key.Study? || s.HasPlanet(s.queue[qid].planet))
    ensures var t := ApplyItem(s, qid);
            Develops(s, t, Some(s.queue[qid])) && t.queue == s.queue[qid := s.queue[qid].(applied := true)]
  {
    hide ApplyItem;
    Q.FinishShape(s, qid);
  }

  lemma FlagsDoNotMatter(s: State, i: Item, j: Item)
    requires ItemAllowed(s, i) && j.planet == i.planet && j.key == i.key && j.user == i.user
    ensures ItemAllowed(s, j)
  {
  }

  lemma BuildingAllowed(env: Env, s: State, user: int, pid: int, b: BuildingType, c: Clock)
    requires QueueBuilding(env, s, user, pid, b, c).1.Ok?
    ensures var q := QueueBuilding(env, s, user, pid, b, c).0.queue;
            |q| > 0 && ItemAllowed(s, q[|q|-1])
  {
    hide Refreshed, UpgradeCost, Repaired, PendingLevel, StartTime, Meets, Sum;
    var p := s.PlanetAt(pid);
    Q.RefreshKeepsEstate(env, p, s.TechsOf(p.owner), c.read);
  }

  lemma UnitsAllowed(env: Env, s: State, user: int, pid: int, key: ItemKey, count: int, c: Clock)
    requires (key.Hulls? || key.Turrets?) && QueueUnits(env, s, user, pid, key, count, c).1.Ok?
    ensures var q := QueueUnits(env, s, user, pid, key, count, c).0.queue;
            |q| > 0 && ItemAllowed(s, q[|q|-1])
  {
    hide Refreshed, UnitCost, UnitPrereqs, StartTime, Meets, Sum;
    var p := s.PlanetAt(pid);
    Q.RefreshKeepsEstate(env, p, s.TechsOf(p.owner), c.read);
  }

  lemma ResearchAllowed(env: Env, s: State, user: int, pid: int, x: TechType, c: Clock)
    requires QueueResearch(env, s, user, pid, x, c).1.Ok?
    ensures var q := QueueResearch(env, s, user, pid, x, c).0.queue;
            |q| > 0 && ItemAllowed(s, q[|q|-1])
  {
    hide Refreshed, ResearchLevelCost, Meets, Sum, LabOf;
  }

  lemma QueueAllowed(s: State, t: State)
    requires Closed(s) && |t.queue| > 0 && t.queue == s.queue + [t.queue[|t.queue|-1]]
             && ItemAllowed(s, t.queue[|t.queue|-1])
    requires Q.SameEstate(s, t) && t.techs == s.techs
    ensures Closed(t)
  {
    hide Develops, ItemAllowed, Q.SameEstate, BuiltAllowed, KnownAllowed;
    EstateDevelops(s, t);
    DevelopingKeepsClosed(s, t, None);
  }

  lemma RowAllowed(s: State, t: State, qid: int, done: Option<Item>)
    requires Closed(s) && 0 <= qid < |s.queue| && Develops(s, t, done) && (done.Some? ==> done.value == s.queue[qid])
    requires |t.queue| == |s.queue| && t.queue == s.queue[qid := t.queue[qid]]
    requires var i, j := s.queue[qid], t.queue[qid]; j.planet == i.planet && j.key == i.key && j.user == i.user
    ensures Closed(t)
  {
    hide Develops, ItemAllowed, BuiltAllowed, KnownAllowed;
    FlagsDoNotMatter(s, s.queue[qid], t.queue[qid]);
    forall i | i in t.queue ensures ItemAllowed(s, i) {
    }
    DevelopingKeepsClosed(s, t, done);
  }

  lemma SameQueueAllowed(s: State, t: State)
    requires Closed(s) && t.queue == s.queue && Q.SameEstate(s, t) && t.techs == s.techs
    ensures Closed(t)
  {
    hide Develops, ItemAllowed, BuiltAllowed, KnownAllowed, Q.SameEstate;
    EstateDevelops(s, t);
    DevelopingKeepsClosed(s, t, None);
  }

  lemma CancelShape(env: Env, s: State, user: int, qid: int, c: Clock)
    requires CancelError(s, user, qid).None?
    ensures var t := Cancel(env, s, user, qid, c).0;
            Q.SameEstate(s, t) && t.techs == s.techs && t.queue == s.queue[qid := s.queue[qid].(cancelled := true)]
  {
    hide Refreshed;
    var p := s.PlanetAt(s.queue[qid].planet);
    Q.RefreshKeepsEstate(env, p, s.TechsOf(p.owner), c.read);
  }

  lemma StepIsClosed(env: Env, s: State, a: Step)
    requires Q.Orderly(s) && Closed(s) && Enabled(s, a)
    ensures Closed(Next(env, s, a))
  {
    hide Q.Orderly, Closed, Develops, Q.SameEstate, Q.Joins, NextOnPlanet, Cancel, QueueBuilding, QueueUnits,
         QueueResearch, ApplyItem, Repaired, ItemAllowed;
    var t, u := Next(env, s, a), Effect(env, s, a);
    Q.ClockAside(s, u, t.clock);
    Q.ClockAside(s, s, t.clock);
    if !Q.TouchesQueue(a) {
      hide Effect;
      Q.OthersKeepEstate(env, s, a);
      SameQueueAllowed(s, t);
    } else {
      match a
      case OrderBuilding(user, pid, b, c) =>
        if QueueBuilding(env, s, user, pid, b, c).1.Ok? {
          Q.BuildingJoins(env, s, user, pid, b, c);
          BuildingAllowed(env, s, user, pid, b, c);
          QueueAllowed(s, t);
        } else { Q.Refused(env, s, a); SameQueueAllowed(s, t); }
      case OrderUnits(user, pid, key, count, c) =>
        if QueueUnits(env, s, user, pid, key, count, c).1.Ok? {
          Q.UnitsJoin(env, s, user, pid, key, count, c);
          UnitsAllowed(env, s, user, pid, key, count, c);
          QueueAllowed(s, t);
        } else { Q.Refused(env, s, a); SameQueueAllowed(s, t); }
      case OrderResearch(user, pid, x, c) =>
        if QueueResearch(env, s, user, pid, x, c).1.Ok? {
          Q.ResearchJoins(env, s, user, pid, x, c);
          ResearchAllowed(env, s, user, pid, x, c);
          QueueAllowed(s, t);
        } else { Q.Refused(env, s, a); SameQueueAllowed(s, t); }
      case CancelOrder(user, qid, c) =>
        if CancelError(s, user, qid).None? {
          CancelShape(env, s, user, qid, c);
          EstateDevelops(s, t);
          RowAllowed(s, t, qid, None);
        } else { Q.Refused(env, s, a); SameQueueAllowed(s, t); }
      case OpenQueue(user, pid, c) =>
        if PlanetError(s, user, pid).None? { Q.RepairIsIdle(s, pid, s.PlanetAt(pid).buildings); }
        SameQueueAllowed(s, t);
      case Finish(qid, c) =>
        Q.ItemHasPlanet(s, qid);
        FinishDevelops(s, qid);
        ClockDevelops(s, u, Some(s.queue[qid]), t.clock);
        RowAllowed(s, t, qid, Some(s.queue[qid]));
    }
  }

  lemma ClockDevelops(s: State, t: State, done: Option<Item>, clock: real)
    requires Develops(s, t, done)
    ensures Develops(s, t.(clock := clock), done)
  {
  }

  /** On every run from a world without buildings, technologies and orders, or from any
      closed and orderly one, everything built, researched or pending meets its
      prerequisites, as things now stand and not only when it was ordered. */
  lemma {:induction false} RunIsClosed(env: Env, s: State, run: seq<Step>)
    requires Q.Orderly(s) && Closed(s) && Legal(env, s, run)
    ensures Closed(Final(env, s, run))
    decreases |run|
  {
    hide Next, Q.Orderly, Closed, Enabled;
    if run != [] {
      Q.StepIsOrderly(env, s, run[0]);
      StepIsClosed(env, s, run[0]);
      RunIsClosed(env, Next(env, s, run[0]), run[1..]);
    }
  }

  lemma BareWorldIsClosed(s: State)
    requires s.queue == [] && s.techs == map[] && forall pid :: s.HasPlanet(pid) ==> s.PlanetAt(pid).buildings == map[]
    ensures Closed(s) && Q.Orderly(s)
  {
  }

  // ---- research ends at its target -----------------------------------------------------------------------

  /** The one pending research of an account aims one above what is known. */
  ghost predicate StudyOnTarget(s: State, i: Item) {
    i.Active() && i.key.Study? ==> i.target == Level(s.TechsOf(i.user), i.key.tech) + 1
  }

  ghost predicate StudiesOnTarget(s: State) { forall i :: i in s.queue ==> StudyOnTarget(s, i) }

  lemma OnlyStudy(s: State, qid: int, k: int)
    requires Q.Capped(s.queue) && 0 <= qid < |s.queue| && 0 <= k < |s.queue| && k != qid
    requires s.queue[qid].Active() && s.queue[qid].key.Study? && s.queue[k].user == s.queue[qid].user
             && s.queue[k].key.Study?
    ensures !s.queue[k].Active()
  {
    var user, done := s.queue[qid].user, s.queue[qid].(applied := true);
    var rest := s.queue[qid := done];
    SumUpdate(s.queue, qid, done, ActiveResearch(user));
    SumNonNegative(rest, ActiveResearch(user));
    assert ActiveResearch(user)(rest[k]) <= Sum(rest, ActiveResearch(user));
  }

  /** Finished research leaves its technology at the target it was ordered with. */
  lemma ResearchHitsTarget(s: State, qid: int)
    requires StudiesOnTarget(s) && 0 <= qid < |s.queue| && s.queue[qid].Active() && s.queue[qid].key.Study?
    ensures Level(ApplyItem(s, qid).TechsOf(s.queue[qid].user), s.queue[qid].key.tech) == s.queue[qid].target
  {
    hide ApplyItem;
    assert StudyOnTarget(s, s.queue[qid]);
    Q.FinishShape(s, qid);
  }

  lemma FinishKeepsStudies(s: State, qid: int, t: State)
    requires Q.Orderly(s) && StudiesOnTarget(s) && 0 <= qid < |s.queue| && s.queue[qid].Active()
    requires t == ApplyItem(s, qid).(clock := t.clock)
    ensures StudiesOnTarget(t)
  {
    hide ApplyItem, Sum, Q.Pairwise, Q.Capped;
    Q.ItemHasPlanet(s, qid);
    Q.FinishShape(s, qid);
    forall k | 0 <= k < |t.queue| ensures StudyOnTarget(t, t.queue[k]) {
      assert StudyOnTarget(s, s.queue[k]);
      if k != qid && s.queue[qid].key.Study? && s.queue[k].key.Study? && s.queue[k].user == s.queue[qid].user {
        OnlyStudy(s, qid, k);
      }
    }
  }

  lemma ResearchAims(env: Env, s: State, user: int, pid: int, x: TechType, c: Clock)
    requires QueueResearch(env, s, user, pid, x, c).1.Ok?
    ensures var q := QueueResearch(env, s, user, pid, x, c).0.queue;
            |q| > 0 && StudyOnTarget(s, q[|q|-1])
  {
    hide Refreshed, ResearchLevelCost, Meets, Sum, LabOf;
  }

  lemma QueueKeepsStudies(s: State, t: State)
    requires StudiesOnTarget(s) && t.techs == s.techs && |t.queue| > 0 && t.queue == s.queue + [t.queue[|t.queue|-1]]
    requires t.queue[|t.queue|-1].key.Study? ==> StudyOnTarget(s, t.queue[|t.queue|-1])
    ensures StudiesOnTarget(t)
  {
    forall i | i in t.queue ensures StudyOnTarget(t, i) {
      if i in s.queue {
        assert StudyOnTarget(s, i);
      }
    }
  }

  lemma SameKeepsStudies(s: State, t: State)
    requires StudiesOnTarget(s) && t.techs == s.techs && t.queue == s.queue
    ensures StudiesOnTarget(t)
  {
    forall i | i in t.queue ensures StudyOnTarget(t, i) {
      assert StudyOnTarget(s, i);
    }
  }

  lemma CancelKeepsStudies(s: State, t: State, qid: int)
    requires StudiesOnTarget(s) && t.techs == s.techs && 0 <= qid < |s.queue|
             && t.queue == s.queue[qid := s.queue[qid].(cancelled := true)]
    ensures StudiesOnTarget(t)
  {
    forall k | 0 <= k < |t.queue| ensures StudyOnTarget(t, t.queue[k]) {
      assert StudyOnTarget(s, s.queue[k]);
    }
  }

  lemma StepKeepsStudies(env: Env, s: State, a: Step)
    requires Q.Orderly(s) && StudiesOnTarget(s) && Enabled(s, a)
    ensures StudiesOnTarget(Next(env, s, a))
  {
    hide Q.Orderly, StudiesOnTarget, Q.SameEstate, Q.Joins, NextOnPlanet, Cancel, QueueBuilding, QueueUnits,
         QueueResearch, ApplyItem, Repaired, StudyOnTarget;
    var t := Next(env, s, a);
    if !Q.TouchesQueue(a) {
      hide Effect;
      Q.OthersKeepEstate(env, s, a);
      SameKeepsStudies(s, t);
    } else {
      match a
      case OrderBuilding(user, pid, b, c) =>
        if QueueBuilding(env, s, user, pid, b, c).1.Ok? {
          Q.BuildingJoins(env, s, user, pid, b, c);
          BuildingIsNoStudy(env, s, user, pid, b, c);
          QueueKeepsStudies(s, t);
        } else { Q.Refused(env, s, a); SameKeepsStudies(s, t); }
      case OrderUnits(user, pid, key, count, c) =>
        if QueueUnits(env, s, user, pid, key, count, c).1.Ok? {
          Q.UnitsJoin(env, s, user, pid, key, count, c);
          Q.UnitsAreNoBuilding(env, s, user, pid, key, count, c);
          QueueKeepsStudies(s, t);
        } else { Q.Refused(env, s, a); SameKeepsStudies(s, t); }
      case OrderResearch(user, pid, x, c) =>
        if QueueResearch(env, s, user, pid, x, c).1.Ok? {
          Q.ResearchJoins(env, s, user, pid, x, c);
          ResearchAims(env, s, user, pid, x, c);
          QueueKeepsStudies(s, t);
        } else { Q.Refused(env, s, a); SameKeepsStudies(s, t); }
      case CancelOrder(user, qid, c) =>
        if CancelError(s, user, qid).None? {
          CancelShape(env, s, user, qid, c);
          CancelKeepsStudies(s, t, qid);
        } else { Q.Refused(env, s, a); SameKeepsStudies(s, t); }
      case OpenQueue(user, pid, c) =>
        if PlanetError(s, user, pid).None? { Q.RepairIsIdle(s, pid, s.PlanetAt(pid).buildings); }
        SameKeepsStudies(s, t);
      case Finish(qid, c) => FinishKeepsStudies(s, qid, t);
    }
  }

  lemma BuildingIsNoStudy(env: Env, s: State, user: int, pid: int, b: BuildingType, c: Clock)
    requires QueueBuilding(env, s, user, pid, b, c).1.Ok?
    ensures var q := QueueBuilding(env, s, user, pid, b, c).0.queue;
            |q| > 0 && q[|q|-1].key == Build(b)
  {
    hide Refreshed, UpgradeCost, Repaired, PendingLevel, StartTime, Meets, Sum;
  }

  /** Cancelling research is harmless, unlike cancelling a building: on every run, pending
      research aims exactly one above the level it will find. */
  lemma {:induction false} RunKeepsStudies(env: Env, s: State, run: seq<Step>)
    requires Q.Orderly(s) && StudiesOnTarget(s) && Legal(env, s, run)
    ensures StudiesOnTarget(Final(env, s, run))
    decreases |run|
  {
    hide Next, Q.Orderly, StudiesOnTarget, Enabled;
    if run != [] {
      Q.StepIsOrderly(env, s, run[0]);
      StepKeepsStudies(env, s, run[0]);
      RunKeepsStudies(env, Next(env, s, run[0]), run[1..]);
    }
  }
}

/** The mutable tables and the statements that read and write them (internal/store). */
module Database {
  import opened Wrappers
  import opened Catalog
  import opened Sums
  import opened Formulas
  import opened World
  import Q = QueueSafety

  class Tables {
    var planets: seq<Option<Planet>>
    var fleets: seq<Option<Fleet>>
    var queue: seq<Item>
    var techs: map<int, Techs>
    /** Recalls that have read their fleet and not yet written it. */
    var recalls: map<int, Recall>
    var clock: real

    constructor (s: State)
      ensures Snapshot() == s
    {
      planets, fleets, queue, techs, recalls, clock := s.planets, s.fleets, s.queue, s.techs, s.recalls, s.clock;
    }

    /** The contents of all tables; also what a transaction keeps to roll back to. */
    function Snapshot(): State
      reads this
    {
      State(planets, fleets, queue, techs, recalls, clock)
    }

    method Rollback(s: State)
      modifies this
      ensures Snapshot() == s
    {
      planets, fleets, queue, techs, recalls, clock := s.planets, s.fleets, s.queue, s.techs, s.recalls, s.clock;
    }

    // ---- planets and their buildings, ships and defenses -------------------------------------

    method UpdatePlanetResources(pid: int, pools: Res, now: real)
      requires Snapshot().HasPlanet(pid)
      modifies this`planets
      ensures Snapshot()
              == old(Snapshot()).WithPlanet(pid, old(Snapshot().PlanetAt(pid)).(pools := pools, cursor := now))
    {
      planets := planets[pid := Some(planets[pid].value.(pools := pools, cursor := now))];
    }

    /** Inserts the row at `delta`, or adds `delta` to it and clamps at zero. */
    method AddShips(pid: int, ship: ShipType, delta: int)
      requires Snapshot().HasPlanet(pid)
      modifies this`planets
      ensures var p := old(Snapshot().PlanetAt(pid));
              Snapshot() == old(Snapshot()).WithPlanet(pid, p.(ships := AddCount(p.ships, ship, delta)))
    {
      var p := planets[pid].value;
      if ship in p.ships {
        var count := p.ships[ship] + delta;
        if count < 0 {
          count := 0;
        }
        planets := planets[pid := Some(p.(ships := p.ships[ship := count]))];
      } else {
        planets := planets[pid := Some(p.(ships := p.ships[ship := delta]))];
      }
    }

    method AddDefenses(pid: int, defense: DefenseType, delta: int)
      requires Snapshot().HasPlanet(pid)
      modifies this`planets
      ensures var p := old(Snapshot().PlanetAt(pid));
              Snapshot() == old(Snapshot()).WithPlanet(pid, p.(defenses := AddCount(p.defenses, defense, delta)))
    {
      var p := planets[pid].value;
      if defense in p.defenses {
        var count := p.defenses[defense] + delta;
        if count < 0 {
          count := 0;
        }
        planets := planets[pid := Some(p.(defenses := p.defenses[defense := count]))];
      } else {
        planets := planets[pid := Some(p.(defenses := p.defenses[defense := delta]))];
      }
    }

    method IncrementBuildingLevel(pid: int, b: BuildingType, delta: int)
      requires Snapshot().HasPlanet(pid)
      modifies this`planets
      ensures var p := old(Snapshot().PlanetAt(pid));
              Snapshot() == old(Snapshot()).WithPlanet(pid,
                                                       p.(buildings := p.buildings[b := Level(p.buildings, b) + delta]))
    {
      var p := planets[pid].value;
      if b in p.buildings {
        planets := planets[pid := Some(p.(buildings := p.buildings[b := p.buildings[b] + delta]))];
      } else {
        planets := planets[pid := Some(p.(buildings := p.buildings[b := delta]))];
      }
    }

    method IncrementPlanetFields(pid: int, delta: int)
      requires Snapshot().HasPlanet(pid)
      modifies this`planets
      ensures var p := old(Snapshot().PlanetAt(pid));
              Snapshot() == old(Snapshot()).WithPlanet(pid, p.(fieldsUsed := p.fieldsUsed + delta))
    {
      var p := planets[pid].value;
      planets := planets[pid := Some(p.(fieldsUsed := p.fieldsUsed + delta))];
    }

    /** The slot is unique: a planet that is already there makes the insert fail. */
    method CreatePlanet(p: Planet) returns (pid: Option<int>)
      modifies this`planets
      ensures pid == if FindByCoord(old(planets), p.coord).Some? then None else Some(|old(planets)|)
      ensures Snapshot() == if pid.None? then old(Snapshot()) else old(Snapshot()).(planets := old(planets) + [Some(p)])
    {
      var taken := GetPlanetByCoord(p.coord);
      if taken.Some? {
        return None;
      }
      pid := Some(|planets|);
      planets := planets + [Some(p)];
    }

    /** The planet in a slot, if any. */
    method GetPlanetByCoord(c: Coord) returns (pid: Option<int>)
      ensures pid == FindByCoord(planets, c)
    {
      var n := |planets|;
      assert planets[..n] == planets;
      while n > 0
        invariant 0 <= n <= |planets|
        invariant FindByCoord(planets, c) == FindByCoord(planets[..n], c)
      {
        n := n - 1;
        assert planets[..n + 1][..n] == planets[..n];
        if planets[n].Some? && planets[n].value.coord == c {
          return Some(n);
        }
      }
      pid := None;
    }

    /** How many planets a user owns. */
    method CountPlanets(user: int) returns (count: int)
      ensures count == Sum(planets, OwnedBy(user))
    {
      count := 0;
      for i := 0 to |planets|
        invariant count == Sum(planets[..i], OwnedBy(user))
      {
        assert planets[..i + 1] == planets[..i] + [planets[i]];
        SumAppend(planets[..i], planets[i], OwnedBy(user));
        if planets[i].Some? && planets[i].value.owner == user {
          count := count + 1;
        }
      }
      assert planets[..|planets|] == planets;
    }

    /** The highest laboratory across a user's planets. */
    method MaxLabAcrossUser(user: int) returns (lab: int)
      ensures lab == LabOf(planets, user)
    {
      lab := 0;
      for i := 0 to |planets|
        invariant lab == LabOf(planets[..i], user)
      {
        assert planets[..i + 1][..i] == planets[..i];
        if planets[i].Some? && planets[i].value.owner == user {
          var level := Level(planets[i].value.buildings, ResearchLab);
          if level > lab {
            lab := level;
          }
        }
      }
      assert planets[..|planets|] == planets;
    }

    method IncrementResearchLevel(user: int, tech: TechType, delta: int)
      modifies this`techs
      ensures var t := old(Snapshot().TechsOf(user));
              Snapshot() == old(Snapshot()).(techs := old(techs)[user := t[tech := Level(t, tech) + delta]])
    {
      var t: Techs := if user in techs then techs[user] else map[];
      if tech in t {
        techs := techs[user := t[tech := t[tech] + delta]];
      } else {
        techs := techs[user := t[tech := delta]];
      }
    }

    // ---- fleets --------------------------------------------------------------------------------

    method InsertFleet(f: Fleet) returns (fid: int)
      modifies this`fleets
      ensures fid == |old(fleets)| && Snapshot() == old(Snapshot()).(fleets := old(fleets) + [Some(f)])
    {
      fid := |fleets|;
      fleets := fleets + [Some(f)];
    }

    /** One row of fleet_ships; the ships table of a fresh fleet is filled with these. */
    method InsertFleetShip(fid: int, ship: ShipType, count: int)
      requires Snapshot().HasFleet(fid)
      modifies this`fleets
      ensures var f := old(Snapshot().FleetAt(fid));
              Snapshot() == old(Snapshot()).WithFleet(fid, Some(f.(ships := f.ships[ship := count])))
    {
      var f := fleets[fid].value;
      fleets := fleets[fid := Some(f.(ships := f.ships[ship := count]))];
    }

    /** Overwrites one count, clamped at zero. */
    method SetFleetShipCount(fid: int, ship: ShipType, count: int)
      requires Snapshot().HasFleet(fid)
      modifies this`fleets
      ensures var f := old(Snapshot().FleetAt(fid));
              Snapshot() == old(Snapshot()).WithFleet(fid, Some(f.(ships := f.ships[ship := Max(0, count)])))
    {
      var f := fleets[fid].value;
      var kept := count;
      if kept < 0 {
        kept := 0;
      }
      fleets := fleets[fid := Some(f.(ships := f.ships[ship := kept]))];
    }

    method UpdateFleetCargo(fid: int, cargo: Cost)
      requires Snapshot().HasFleet(fid)
      modifies this`fleets
      ensures Snapshot() == old(Snapshot()).WithFleet(fid, Some(old(Snapshot().FleetAt(fid)).(cargo := cargo)))
    {
      fleets := fleets[fid := Some(fleets[fid].value.(cargo := cargo))];
    }

    /** A missing return time keeps the old one. */
    method MarkArrivalProcessed(fid: int, status: Status, returnAt: Option<real>)
      requires Snapshot().HasFleet(fid)
      modifies this`fleets
      ensures var f := old(Snapshot().FleetAt(fid));
              Snapshot() == old(Snapshot()).WithFleet(fid, Some(f.(arrivalProcessed := true, status := status,
                                                                 returnAt := if returnAt.Some? then returnAt
                                                                 else f.returnAt)))
    {
      var f := fleets[fid].value;
      fleets := fleets[fid := Some(f.(arrivalProcessed := true, status := status,
                                      returnAt := if returnAt.Some? then returnAt else f.returnAt))];
    }

    method MarkReturnProcessed(fid: int)
      requires Snapshot().HasFleet(fid)
      modifies this`fleets
      ensures Snapshot()
              == old(Snapshot()).WithFleet(fid,
                                           Some(old(Snapshot().FleetAt(fid)).(returnProcessed := true,
                                                   status := Returned)))
    {
      fleets := fleets[fid := Some(fleets[fid].value.(returnProcessed := true, status := Returned))];
    }

    /** Updates no row when the fleet is gone. */
    method SetFleetStatus(fid: int, status: Status)
      modifies this`fleets
      ensures var s := old(Snapshot());
              Snapshot() == if s.HasFleet(fid) then s.WithFleet(fid, Some(s.FleetAt(fid).(status := status))) else s
    {
      if 0 <= fid < |fleets| && fleets[fid].Some? {
        fleets := fleets[fid := Some(fleets[fid].value.(status := status))];
      }
    }

    method SetFleetReturn(fid: int, returnAt: real)
      modifies this`fleets
      ensures var s := old(Snapshot());
              Snapshot() == if s.HasFleet(fid) then s.WithFleet(fid, Some(s.FleetAt(fid).(returnAt := Some(returnAt))))
                else s
    {
      if 0 <= fid < |fleets| && fleets[fid].Some? {
        fleets := fleets[fid := Some(fleets[fid].value.(returnAt := Some(returnAt)))];
      }
    }

    method DeleteFleet(fid: int)
      requires Snapshot().HasFleet(fid)
      modifies this`fleets
      ensures Snapshot() == old(Snapshot()).WithFleet(fid, None)
    {
      fleets := fleets[fid := None];
    }

    // ---- the build queue -------------------------------------------------------------------------

    method InsertQueueItem(i: Item) returns (qid: int)
      modifies this`queue
      ensures qid == |old(queue)| && Snapshot() == old(Snapshot()).(queue := old(queue) + [i])
    {
      qid := |queue|;
      queue := queue + [i];
    }

    method MarkQueueApplied(qid: int)
      requires 0 <= qid < |queue|
      modifies this`queue
      ensures Snapshot() == old(Snapshot()).(queue := old(queue)[qid := old(queue)[qid].(applied := true)])
    {
      queue := queue[qid := queue[qid].(applied := true)];
    }

    method CancelQueueItem(qid: int)
      requires 0 <= qid < |queue|
      modifies this`queue
      ensures Snapshot() == old(Snapshot()).(queue := old(queue)[qid := old(queue)[qid].(cancelled := true)])
    {
      queue := queue[qid := queue[qid].(cancelled := true)];
    }

    method CountActiveQueueForPlanet(pid: int) returns (n: int)
      ensures n == Sum(queue, ActiveOn(pid))
    {
      n := 0;
      for i := 0 to |queue|
        invariant n == Sum(queue[..i], ActiveOn(pid))
      {
        assert queue[..i + 1] == queue[..i] + [queue[i]];
        SumAppend(queue[..i], queue[i], ActiveOn(pid));
        if queue[i].planet == pid && !queue[i].cancelled && !queue[i].applied {
          n := n + 1;
        }
      }
      assert queue[..|queue|] == queue;
    }

    method HasActiveResearch(user: int) returns (busy: bool)
      ensures busy <==> Sum(queue, ActiveResearch(user)) > 0
    {
      var n := 0;
      for i := 0 to |queue|
        invariant n == Sum(queue[..i], ActiveResearch(user))
      {
        assert queue[..i + 1] == queue[..i] + [queue[i]];
        SumAppend(queue[..i], queue[i], ActiveResearch(user));
        if queue[i].user == user && queue[i].key.Study? && !queue[i].cancelled && !queue[i].applied {
          n := n + 1;
        }
      }
      assert queue[..|queue|] == queue;
      busy := n > 0;
    }

    /** Where a chained job starts: at the latest finish of what is active, but not before now. */
    method LatestActiveQueueFinish(pid: int, now: real) returns (start: real)
      ensures start == StartTime(queue, pid, now)
    {
      start := now;
      for i := 0 to |queue|
        invariant start == StartTime(queue[..i], pid, now)
      {
        assert queue[..i + 1][..i] == queue[..i];
        if queue[i].planet == pid && !queue[i].cancelled && !queue[i].applied && queue[i].finished > start {
          start := queue[i].finished;
        }
      }
      assert queue[..|queue|] == queue;
    }

    /** The highest target already ordered for one building of a planet. */
    method HighestPending(pid: int, b: BuildingType, level: int) returns (base: int)
      ensures base == PendingLevel(queue, pid, b, level)
    {
      base := level;
      for i := 0 to |queue|
        invariant base == PendingLevel(queue[..i], pid, b, level)
      {
        assert queue[..i + 1][..i] == queue[..i];
        if queue[i].planet == pid && !queue[i].cancelled && !queue[i].applied && queue[i].key == Build(b) {
          if queue[i].target > base {
            base := queue[i].target;
          }
        }
      }
      assert queue[..|queue|] == queue;
    }

    /** Due rows in order of finish, at most `BATCH_SIZE`; equal finishes in any order. */
    method ListDueQueueItems(now: real) returns (ids: seq<int>)
      ensures Q.IsBatch(queue, now, ids)
    {
      ids := FirstByTime(ItemTimes(queue), DueItems(queue, now));
      ChosenIsBatch(queue, now, ids);
    }

    /** Fleets that are due, earliest first; equal times in any order. */
    method ListDueFleets(due: Option<Fleet> -> bool, time: Option<Fleet> -> real) returns (ids: seq<int>)
      ensures IsFleetBatch(fleets, due, time, ids)
    {
      ids := FirstByTime(FleetTimes(fleets, time), DueFleets(fleets, due));
    }
  }

  function ItemTimes(queue: seq<Item>): seq<real> { seq(|queue|, k requires 0 <= k < |queue| => queue[k].finished) }
  function DueItems(queue: seq<Item>, now: real): set<int> { set k | 0 <= k < |queue| && DueItem(queue[k], now) }

  function FleetTimes(fleets: seq<Option<Fleet>>, time: Option<Fleet> -> real): seq<real> {
    seq(|fleets|, k requires 0 <= k < |fleets| => time(fleets[k]))
  }
  function DueFleets(fleets: seq<Option<Fleet>>, due: Option<Fleet> -> bool): set<int> {
    set k | 0 <= k < |fleets| && due(fleets[k])
  }

  lemma ChosenIsBatch(queue: seq<Item>, now: real, ids: seq<int>)
    requires Chosen(ItemTimes(queue), DueItems(queue, now), ids)
    ensures Q.IsBatch(queue, now, ids)
  {
    forall k | 0 <= k < |ids| ensures 0 <= ids[k] < |queue| && DueItem(queue[ids[k]], now) {
      assert ids[k] in DueItems(queue, now);
    }
    forall j, k | 0 <= j < k < |ids| ensures ids[j] != ids[k] && queue[ids[j]].finished <= queue[ids[k]].finished {
      assert ItemTimes(queue)[ids[j]] <= ItemTimes(queue)[ids[k]];
    }
    forall q, k | 0 <= q < |queue| && DueItem(queue[q], now) && q !in ids && 0 <= k < |ids|
      ensures queue[ids[k]].finished <= queue[q].finished
    {
      assert q in DueItems(queue, now);
      assert ItemTimes(queue)[ids[k]] <= ItemTimes(queue)[q];
    }
    forall q | 0 <= q < |queue| && DueItem(queue[q], now) && |ids| < Q.BATCH_SIZE ensures q in ids {
      assert q in DueItems(queue, now);
    }
  }

  /** The first `BATCH_SIZE` of the due rows in order of their times. */
  ghost predicate Chosen(times: seq<real>, due: set<int>, ids: seq<int>)
    requires forall k :: k in due ==> 0 <= k < |times|
  {
    && |ids| <= Q.BATCH_SIZE && (forall k :: 0 <= k < |ids| ==> ids[k] in due)
    && (forall j, k :: 0 <= j < k < |ids| ==> ids[j] != ids[k] && times[ids[j]] <= times[ids[k]])
    && (forall q, k :: q in due && q !in ids && 0 <= k < |ids| ==> times[ids[k]] <= times[q])
    && (|ids| < Q.BATCH_SIZE ==> forall q :: q in due ==> q in ids)
  }

  method FirstByTime(times: seq<real>, due: set<int>) returns (ids: seq<int>)
    requires forall k :: k in due ==> 0 <= k < |times|
    ensures Chosen(times, due, ids)
  {
    var todo := due;
    ids := [];
    while todo != {} && |ids| < Q.BATCH_SIZE
      invariant |ids| <= Q.BATCH_SIZE
      invariant forall k :: k in todo <==> k in due && k !in ids
      invariant forall k :: 0 <= k < |ids| ==> ids[k] in due
      invariant forall j, k :: 0 <= j < k < |ids| ==> ids[j] != ids[k] && times[ids[j]] <= times[ids[k]]
      invariant forall q, k :: q in todo && 0 <= k < |ids| ==> times[ids[k]] <= times[q]
      decreases todo
    {
      ghost var first := SomeEarliest(times, todo);
      var next :| next in todo && forall k :: k in todo ==> times[next] <= times[k];
      todo := todo - {next};
      ids := ids + [next];
    }
  }

  /** Rows claimed by a fleet sweep: due, each once, in order of their due times, at most
      `BATCH_SIZE`, and all that are due if there are fewer. */
  ghost predicate IsFleetBatch(fleets: seq<Option<Fleet>>, due: Option<Fleet> -> bool, time: Option<Fleet> -> real,
                               ids: seq<int>) {
    Chosen(FleetTimes(fleets, time), DueFleets(fleets, due), ids)
  }

  function ArrivesBy(now: real): Option<Fleet> -> bool { (f: Option<Fleet>) => f.Some? && DueArrival(f.value, now) }
  function ArrivalTime(f: Option<Fleet>): real { if f.Some? then f.value.arrivalAt else 0.0 }
  function ReturnsBy(now: real): Option<Fleet> -> bool { (f: Option<Fleet>) => f.Some? && DueReturn(f.value, now) }
  function ReturnTime(f: Option<Fleet>): real {
    if f.Some? && f.value.returnAt.Some? then f.value.returnAt.value else 0.0
  }

  /** The last write of a row counts. */
  lemma LastWrite(s: State, pid: int, p: Planet, q: Planet)
    requires s.HasPlanet(pid)
    ensures s.WithPlanet(pid, p).WithPlanet(pid, q) == s.WithPlanet(pid, q)
  {
    assert s.planets[pid := Some(p)][pid := Some(q)] == s.planets[pid := Some(q)];
  }

  lemma LastFleetWrite(s: State, fid: int, f: Fleet, g: Option<Fleet>)
    requires s.HasFleet(fid)
    ensures s.WithFleet(fid, Some(f)).WithFleet(fid, g) == s.WithFleet(fid, g)
  {
    assert s.fleets[fid := Some(f)][fid := g] == s.fleets[fid := g];
  }

  ghost predicate Earliest(times: seq<real>, todo: set<int>, next: int)
    requires forall k :: k in todo ==> 0 <= k < |times|
  {
    next in todo && forall k :: k in todo ==> times[next] <= times[k]
  }

  lemma Any<T>(s: set<T>) returns (x: T)
    requires s != {}
    ensures x in s
  {
    x :| x in s;
  }

  lemma {:induction false} SomeEarliest(times: seq<real>, todo: set<int>) returns (next: int)
    requires todo != {} && forall k :: k in todo ==> 0 <= k < |times|
    ensures Earliest(times, todo, next)
    decreases todo
  {
    next := Any(todo);
    if todo != {next} {
      var other := SomeEarliest(times, todo - {next});
      forall k | k in todo ensures times[next] <= times[k] || times[other] <= times[k] {
        assert k == next || k in todo - {next};
      }
      if times[other] < times[next] {
        next := other;
      }
    }
  }
}

/** Lazy production of one resource pool (internal/svc/resources.go): nothing runs on a
    timer, every access first credits the time since the cursor.  Instants and spans are
    seconds; rates are per hour. */
module Accrual {
  /** One refresh of a pool: add, cap, and never below zero. */
  function Settle(stock: real, gain: real, cap: real): real {
    var x := stock + gain;
    var capped := if x > cap then cap else x;
    if capped < 0.0 then 0.0 else capped
  }

  function Gain(rate: real, seconds: real): real { rate * (seconds / 3600.0) }

  /** Refreshes within a second of the last one are skipped. */
  predicate Skips(cursor: real, now: real) { now - cursor < 1.0 }

  datatype Pool = Pool(stock: real, cursor: real)

  function Refresh(p: Pool, rate: real, cap: real, now: real): Pool {
    if Skips(p.cursor, now) then p else Pool(Settle(p.stock, Gain(rate, now - p.cursor), cap), now)
  }

  function RefreshAll(p: Pool, rate: real, cap: real, times: seq<real>): Pool
    decreases |times|
  {
    if times == [] then p else RefreshAll(Refresh(p, rate, cap, times[0]), rate, cap, times[1..])
  }

  ghost predicate Ascending(from: real, times: seq<real>)
    decreases |times|
  {
    times != [] ==> from <= times[0] && Ascending(times[0], times[1..])
  }

  function Min(a: real, b: real): real { if a < b then a else b }

  lemma GainAdds(rate: real, a: real, b: real)
    requires rate >= 0.0 && a >= 0.0 && b >= 0.0
    ensures Gain(rate, a + b) == Gain(rate, a) + Gain(rate, b) && Gain(rate, a) >= 0.0 && Gain(rate, b) >= 0.0
  {
    assert rate * ((a + b) / 3600.0) == rate * (a / 3600.0) + rate * (b / 3600.0);
    assert rate * (a / 3600.0) >= 0.0 && rate * (b / 3600.0) >= 0.0;
  }

  /** Closed form: however often a planet is looked at, once a refresh has taken effect
      the pool holds what one uninterrupted span up to the cursor yields, and the cursor
      lags the last look by less than a second. */
  lemma {:induction false} LazyClosedForm(p: Pool, rate: real, cap: real, from: real, times: seq<real>)
    requires rate >= 0.0 && cap >= 0.0 && p.stock >= 0.0 && p.cursor <= from && Ascending(from, times)
    ensures var r := RefreshAll(p, rate, cap, times);
            && r == (if r.cursor == p.cursor then p
                     else Pool(Min(cap, p.stock + Gain(rate, r.cursor - p.cursor)), r.cursor))
            && r.cursor >= p.cursor
            && (times != [] ==> r.cursor <= times[|times|-1] && Skips(r.cursor, times[|times|-1]))
    decreases |times|
  {
    if times != [] {
      var q := Refresh(p, rate, cap, times[0]);
      LazyClosedForm(q, rate, cap, times[0], times[1..]);
      var r := RefreshAll(q, rate, cap, times[1..]);
      GainAdds(rate, q.cursor - p.cursor, r.cursor - q.cursor);
      assert r.cursor - p.cursor == (q.cursor - p.cursor) + (r.cursor - q.cursor);
      assert |times| > 1 ==> times[1..][|times[1..]|-1] == times[|times|-1];
    }
  }

  /** The simulation that is never run: tick after tick, capped at each tick. */
  function Eager(stock: real, rate: real, cap: real, ticks: seq<real>): real
    decreases |ticks|
  {
    if ticks == [] then stock else Eager(Settle(stock, Gain(rate, ticks[0]), cap), rate, cap, ticks[1..])
  }

  function Total(ticks: seq<real>): real {
    if ticks == [] then 0.0 else ticks[0] + Total(ticks[1..])
  }

  lemma {:induction false} EagerClosedForm(stock: real, rate: real, cap: real, ticks: seq<real>)
    requires rate >= 0.0 && cap >= 0.0 && stock >= 0.0 && ticks != [] && forall d :: d in ticks ==> d >= 0.0
    ensures Total(ticks) >= 0.0 && Eager(stock, rate, cap, ticks) == Min(cap, stock + Gain(rate, Total(ticks)))
    decreases |ticks|
  {
    assert ticks[0] in ticks;
    var next := Settle(stock, Gain(rate, ticks[0]), cap);
    if |ticks| > 1 {
      forall d | d in ticks[1..] ensures d >= 0.0 { assert d in ticks; }
      EagerClosedForm(next, rate, cap, ticks[1..]);
      GainAdds(rate, ticks[0], Total(ticks[1..]));
    } else {
      assert ticks[1..] == [];
      GainAdds(rate, ticks[0], 0.0);
    }
  }

  /** Looking lazily equals ticking eagerly, for every way to cut the credited span into ticks. */
  lemma LazyIsEager(p: Pool, rate: real, cap: real, times: seq<real>, ticks: seq<real>)
    requires rate >= 0.0 && cap >= 0.0 && p.stock >= 0.0 && Ascending(p.cursor, times)
    requires RefreshAll(p, rate, cap, times).cursor > p.cursor
    requires forall d :: d in ticks ==> d >= 0.0
    requires Total(ticks) == RefreshAll(p, rate, cap, times).cursor - p.cursor
    ensures RefreshAll(p, rate, cap, times).stock == Eager(p.stock, rate, cap, ticks)
  {
    LazyClosedForm(p, rate, cap, p.cursor, times);
    EagerClosedForm(p.stock, rate, cap, ticks);
  }

  // ---- spans of time ----------------------------------------------------------------

  /** Non-empty spans that follow one another without overlap, none before `from`. */
  ghost predicate Disjoint(from: real, spans: seq<(real, real)>) {
    && (forall i :: 0 <= i < |spans| ==> from <= spans[i].0 < spans[i].1)
    && (forall i, j :: 0 <= i < j < |spans| ==> spans[i].1 <= spans[j].0)
  }

  lemma DisjointCons(from: real, first: (real, real), rest: seq<(real, real)>)
    requires from <= first.0 < first.1 && Disjoint(first.1, rest)
    ensures Disjoint(from, [first] + rest)
  {
    var spans := [first] + rest;
    forall i | 0 <= i < |spans| ensures from <= spans[i].0 < spans[i].1 {
      if i > 0 { assert spans[i] == rest[i - 1]; }
    }
    forall i, j | 0 <= i < j < |spans| ensures spans[i].1 <= spans[j].0 {
      assert spans[j] == rest[j - 1];
      if i > 0 { assert spans[i] == rest[i - 1]; }
    }
  }

  lemma DisjointSooner(from: real, later: real, spans: seq<(real, real)>)
    requires from <= later && Disjoint(later, spans)
    ensures Disjoint(from, spans)
  {
  }

  // ---- level changes inside an unsettled window -----------------------------------------

  /** A level takes effect at `mid` without a refresh, so the whole window up to `now` is later
      credited at the new rate, into the new silo. */
  function Retroactive(stock: real, newRate: real, newCap: real, start: real, now: real): real {
    Settle(stock, Gain(newRate, now - start), newCap)
  }

  /** What settling at the old rate into the old silo first would have given. */
  function Prompt(stock: real, oldRate: real, newRate: real, oldCap: real, newCap: real, start: real, mid: real,
                  now: real): real {
    Settle(Settle(stock, Gain(oldRate, mid - start), oldCap), Gain(newRate, now - mid), newCap)
  }

  /** What is in the pool at `mid` when it is settled there. */
  function Kept(stock: real, oldRate: real, oldCap: real, start: real, mid: real): real {
    Min(oldCap, stock + Gain(oldRate, mid - start))
  }

  /** The stock at `mid` was the same at either rate, or the new silo fills up from both. */
  predicate Harmless(stock: real, oldRate: real, newRate: real, oldCap: real, newCap: real, start: real, mid: real,
                     now: real) {
    var kept, pretended := Kept(stock, oldRate, oldCap, start, mid), stock + Gain(newRate, mid - start);
    kept == pretended || Min(kept, pretended) + Gain(newRate, now - mid) >= newCap
  }

  /** The retroactive credit differs from the prompt one unless the level was harmless: it gives
      too much when the new rate pretends more than was kept, and too little when less. */
  lemma RetroactiveIsHarmlessIff(stock: real, oldRate: real, newRate: real, oldCap: real, newCap: real, start: real,
                                 mid: real, now: real)
    requires oldRate >= 0.0 && newRate >= 0.0 && oldCap >= 0.0 && newCap >= 0.0 && stock >= 0.0 && start <= mid <= now
    ensures Retroactive(stock, newRate, newCap, start, now)
            == Prompt(stock, oldRate, newRate, oldCap, newCap, start, mid, now)
            <==> Harmless(stock, oldRate, newRate, oldCap, newCap, start, mid, now)
    ensures stock + Gain(newRate, mid - start) <= Kept(stock, oldRate, oldCap, start, mid)
            ==> Retroactive(stock, newRate, newCap, start, now)
                <= Prompt(stock, oldRate, newRate, oldCap, newCap, start, mid, now)
    ensures stock + Gain(newRate, mid - start) >= Kept(stock, oldRate, oldCap, start, mid)
            ==> Retroactive(stock, newRate, newCap, start, now)
                >= Prompt(stock, oldRate, newRate, oldCap, newCap, start, mid, now)
  {
    hide Gain;
    GainAdds(newRate, mid - start, now - mid);
    GainAdds(oldRate, mid - start, now - mid);
    assert now - start == (mid - start) + (now - mid);
  }

  /** With the silo unchanged, for rates that rise or fall. */
  lemma SameSiloIsHarmlessIff(stock: real, oldRate: real, newRate: real, cap: real, start: real, mid: real, now: real)
    requires oldRate >= 0.0 && newRate >= 0.0 && cap >= 0.0 && stock >= 0.0 && start <= mid <= now
    ensures Retroactive(stock, newRate, cap, start, now) == Prompt(stock, oldRate, newRate, cap, cap, start, mid, now)
            <==> oldRate == newRate || mid == start
                 || stock + Gain(Min(oldRate, newRate), mid - start) + Gain(newRate, now - mid) >= cap
    ensures oldRate <= newRate
            ==> Prompt(stock, oldRate, newRate, cap, cap, start, mid, now)
                <= Retroactive(stock, newRate, cap, start, now)
    ensures newRate <= oldRate
            ==> Retroactive(stock, newRate, cap, start, now)
                <= Prompt(stock, oldRate, newRate, cap, cap, start, mid, now)
  {
    hide Gain;
    RetroactiveIsHarmlessIff(stock, oldRate, newRate, cap, cap, start, mid, now);
    GainAdds(newRate, mid - start, now - mid);
    GainAdds(oldRate, mid - start, now - mid);
    if oldRate <= newRate { Owed(oldRate, newRate, mid - start); } else { Owed(newRate, oldRate, mid - start); }
  }

  /** With the rate unchanged, as when a storage is finished. */
  lemma SameRateIsHarmlessIff(stock: real, rate: real, oldCap: real, newCap: real, start: real, mid: real, now: real)
    requires rate >= 0.0 && oldCap >= 0.0 && newCap >= 0.0 && stock >= 0.0 && start <= mid <= now
    ensures Retroactive(stock, rate, newCap, start, now) == Prompt(stock, rate, rate, oldCap, newCap, start, mid, now)
            <==> stock + Gain(rate, mid - start) <= oldCap || oldCap + Gain(rate, now - mid) >= newCap
    ensures Prompt(stock, rate, rate, oldCap, newCap, start, mid, now) <= Retroactive(stock, rate, newCap, start, now)
  {
    hide Gain;
    RetroactiveIsHarmlessIff(stock, rate, rate, oldCap, newCap, start, mid, now);
  }

  lemma Owed(oldRate: real, newRate: real, span: real)
    requires oldRate <= newRate && span >= 0.0
    ensures Gain(oldRate, span) <= Gain(newRate, span)
    ensures Gain(oldRate, span) == Gain(newRate, span) <==> oldRate == newRate || span == 0.0
  {
    var h := span / 3600.0;
    assert Gain(newRate, span) - Gain(oldRate, span) == (newRate - oldRate) * h;
    if oldRate < newRate && span > 0.0 {
      assert (newRate - oldRate) * h > 0.0;
    } else {
      assert (newRate - oldRate) * h == 0.0;
    }
  }
}

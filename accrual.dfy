/**
 * Display accrual on read: the resource totals shown to the player are the
 * stored stocks plus the production since the stored `timestamp`, each capped
 * at its maximum. Wheat is produced at `wheatRate - population`. JavaScript
 * doubles are idealised as exact reals.
 */
module Accrual {

  import opened Settlement

  const MillisecondsPerHour: real := 3600000.0

  /** Hours elapsed from `timestamp` to `now` (both in milliseconds). */
  function HoursSince(timestamp: int, now: int): real {
    (now - timestamp) as real / MillisecondsPerHour
  }

  /**
   * `Math.min(stock + hours * rate, cap)`: the accrued amount when it is
   * below the cap, the cap otherwise.
   */
  function Accrue(stock: real, rate: real, cap: real, hours: real): (r: real)
    ensures r <= cap && r <= stock + hours * rate
    ensures r == cap || r == stock + hours * rate
  {
    if stock + hours * rate < cap then stock + hours * rate else cap
  }

  /** Population eats wheat: the net wheat rate. */
  function WheatNetRate(u: UserRecord): real {
    u.wheatRate - u.population as real
  }

  datatype Stocks = Stocks(lumber: real, iron: real, clay: real, wheat: real)

  /** The four totals a read shows for `u` at time `now`. */
  function Displayed(u: UserRecord, now: int): (s: Stocks)
    ensures s.lumber <= u.maxLumber && s.iron <= u.maxIron
    ensures s.clay <= u.maxClay && s.wheat <= u.maxWheat
  {
    var hours := HoursSince(u.timestamp, now);
    Stocks(
      Accrue(u.lumber, u.lumberRate, u.maxLumber, hours),
      Accrue(u.iron, u.ironRate, u.maxIron, hours),
      Accrue(u.clay, u.clayRate, u.maxClay, hours),
      Accrue(u.wheat, WheatNetRate(u), u.maxWheat, hours))
  }

  /**
   * With a non-negative rate and a stock already within `[0, cap]`, the
   * accrued amount never drops below the stock and never exceeds the cap.
   */
  lemma AccrueWithinBounds(stock: real, rate: real, cap: real, hours: real)
    requires 0.0 <= stock <= cap && 0.0 <= rate && 0.0 <= hours
    ensures 0.0 <= stock <= Accrue(stock, rate, cap, hours) <= cap
  {
    assert 0.0 <= hours * rate;
  }

  /** With a non-negative rate, a later read never shows less. */
  lemma AccrueMonotoneInTime(stock: real, rate: real, cap: real, h1: real, h2: real)
    requires 0.0 <= rate && h1 <= h2
    ensures Accrue(stock, rate, cap, h1) <= Accrue(stock, rate, cap, h2)
  {
    var d := h2 - h1;
    assert 0.0 <= d * rate;
    assert h2 * rate == h1 * rate + d * rate;
  }

  /**
   * A negative rate (wheat when population exceeds `wheatRate`) makes the
   * total fall below the stored stock as time passes; there is no lower clamp.
   */
  lemma AccrueFallsWithNegativeRate(stock: real, rate: real, cap: real, hours: real)
    requires rate < 0.0 && 0.0 < hours
    ensures Accrue(stock, rate, cap, hours) < stock
  {
    assert hours * rate < 0.0;
  }

  /** Lumber, iron and clay are shown between the stored stock and the cap. */
  lemma DisplayedWithinCaps(u: UserRecord, now: int)
    requires u.timestamp <= now
    requires 0.0 <= u.lumberRate && 0.0 <= u.ironRate && 0.0 <= u.clayRate
    requires 0.0 <= u.lumber <= u.maxLumber && 0.0 <= u.iron <= u.maxIron && 0.0 <= u.clay <= u.maxClay
    ensures u.lumber <= Displayed(u, now).lumber <= u.maxLumber
    ensures u.iron <= Displayed(u, now).iron <= u.maxIron
    ensures u.clay <= Displayed(u, now).clay <= u.maxClay
  {
    var hours := HoursSince(u.timestamp, now);
    assert 0.0 <= hours;
    AccrueWithinBounds(u.lumber, u.lumberRate, u.maxLumber, hours);
    AccrueWithinBounds(u.iron, u.ironRate, u.maxIron, hours);
    AccrueWithinBounds(u.clay, u.clayRate, u.maxClay, hours);
  }

  /** Wheat has no floor: a settlement whose population outgrows its wheat rate is shown less wheat than stored, even below zero. */
  lemma DisplayedWheatHasNoFloor(u: UserRecord, now: int)
    requires u.timestamp < now && u.wheatRate < u.population as real
    ensures Displayed(u, now).wheat < u.wheat
  {
    var hours := HoursSince(u.timestamp, now);
    assert 0.0 < hours;
    AccrueFallsWithNegativeRate(u.wheat, WheatNetRate(u), u.maxWheat, hours);
  }

  /** A fresh settlement read one hour after creation shows 255 lumber, iron and clay and 254 wheat. */
  lemma StarterAfterOneHour(username: string, hash: string, cell: MapCell, t: int)
    ensures var s := Displayed(StarterSnapshot(username, hash, cell, t), t + 3600000);
      s == Stocks(255.0, 255.0, 255.0, 254.0)
  {
    var u := StarterSnapshot(username, hash, cell, t);
    assert HoursSince(u.timestamp, t + 3600000) == 1.0;
  }

  /** Read one hundred hours after creation, every total is capped at 500 rather than 750. */
  lemma StarterAfterHundredHours(username: string, hash: string, cell: MapCell, t: int)
    ensures var s := Displayed(StarterSnapshot(username, hash, cell, t), t + 360000000);
      s == Stocks(500.0, 500.0, 500.0, 500.0)
  {
    var u := StarterSnapshot(username, hash, cell, t);
    assert HoursSince(u.timestamp, t + 360000000) == 100.0;
  }

  /** The display depends only on the resource fields and the timestamp, not on the garrison or the ledger. */
  lemma DisplayedIgnoresTroops(u: UserRecord, troops: Garrison, ledger: seq<Group>, now: int)
    ensures Displayed(u.(troops := troops, troopsOnMove := ledger), now) == Displayed(u, now)
  {
  }
}

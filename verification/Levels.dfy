// strategy/levels.py: trigger, stop and target prices snapped to the exchange tick.
module Levels {
  import opened Rounding
  import opened Arithmetic

  datatype OrderLevels = OrderLevels(
    anchor: int,
    longEntry: int, longSl: int, longTp: int,
    shortEntry: int, shortSl: int, shortTp: int)

  function RoundToTick(price: int, tick: int): int
    requires tick > 0
  {
    Round(price as real / tick as real) * tick
  }

  function BuildOrderLevels(anchor: int, triggerDist: int, tpDist: int, slDist: int, tick: int): OrderLevels
    requires tick > 0
  {
    var longEntry := RoundToTick(anchor + triggerDist, tick);
    var shortEntry := RoundToTick(anchor - triggerDist, tick);
    OrderLevels(
      RoundToTick(anchor, tick),
      longEntry, RoundToTick(longEntry - slDist, tick), RoundToTick(longEntry + tpDist, tick),
      shortEntry, RoundToTick(shortEntry + slDist, tick), RoundToTick(shortEntry - tpDist, tick))
  }

  lemma NearestGridPrice(price: int, tick: int)
    requires tick > 0
    ensures -tick <= 2 * (price - RoundToTick(price, tick)) <= tick
  {
    var n := Round(price as real / tick as real);
    RoundNearest(price as real / tick as real);
    HalfDivisor(price as real, tick as real, n as real);
    assert n as real * tick as real == (n * tick) as real;
  }

  lemma GridPriceKept(price: int, tick: int)
    requires tick > 0 && price % tick == 0
    ensures RoundToTick(price, tick) == price
  {
    var k := price / tick;
    assert price == k * tick;
    assert price as real == k as real * tick as real;
    assert price as real / tick as real == k as real;
    RoundExact(k);
  }

  // The tick price is on the grid, at most half a tick away, and a grid price is left alone.
  lemma RoundToTickNearest(price: int, tick: int)
    requires tick > 0
    ensures RoundToTick(price, tick) % tick == 0
    ensures -tick <= 2 * (price - RoundToTick(price, tick)) <= tick
    ensures price % tick == 0 ==> RoundToTick(price, tick) == price
  {
    NearestGridPrice(price, tick);
    MultipleModulo(Round(price as real / tick as real), tick);
    if price % tick == 0 {
      GridPriceKept(price, tick);
    }
  }

  // Half-even rounding is what makes the short side an exact mirror of the long side.
  lemma RoundToTickOdd(price: int, tick: int)
    requires tick > 0
    ensures RoundToTick(-price, tick) == -RoundToTick(price, tick)
  {
    var x := price as real / tick as real;
    assert (-price) as real / tick as real == -x;
    RoundOdd(x);
    assert -Round(x) * tick == -(Round(x) * tick);
  }

  // The triggers are the configured distance from the anchor price to within half a tick, and
  // exactly when that price is on the grid; the anchor itself is kept to within half a tick.
  lemma TriggerDistances(anchor: int, triggerDist: int, tpDist: int, slDist: int, tick: int)
    requires tick > 0
    ensures var l := BuildOrderLevels(anchor, triggerDist, tpDist, slDist, tick);
      && -tick <= 2 * (l.longEntry - anchor - triggerDist) <= tick
      && -tick <= 2 * (anchor - l.shortEntry - triggerDist) <= tick
      && -tick <= 2 * (l.anchor - anchor) <= tick
      && ((anchor + triggerDist) % tick == 0 ==> l.longEntry == anchor + triggerDist)
      && ((anchor - triggerDist) % tick == 0 ==> l.shortEntry == anchor - triggerDist)
      && (anchor % tick == 0 ==> l.anchor == anchor)
      && (2 * triggerDist > tick ==> l.shortEntry < l.longEntry)
  {
    RoundToTickNearest(anchor, tick);
    RoundToTickNearest(anchor + triggerDist, tick);
    RoundToTickNearest(anchor - triggerDist, tick);
  }

  predicate OnGrid(l: OrderLevels, tick: int)
    requires tick > 0
  {
    && l.anchor % tick == 0
    && l.longEntry % tick == 0 && l.longSl % tick == 0 && l.longTp % tick == 0
    && l.shortEntry % tick == 0 && l.shortSl % tick == 0 && l.shortTp % tick == 0
  }

  lemma LevelsOnGrid(anchor: int, triggerDist: int, tpDist: int, slDist: int, tick: int)
    requires tick > 0
    ensures OnGrid(BuildOrderLevels(anchor, triggerDist, tpDist, slDist, tick), tick)
  {
    var l := BuildOrderLevels(anchor, triggerDist, tpDist, slDist, tick);
    RoundToTickNearest(anchor, tick);
    RoundToTickNearest(anchor + triggerDist, tick);
    RoundToTickNearest(anchor - triggerDist, tick);
    RoundToTickNearest(l.longEntry - slDist, tick);
    RoundToTickNearest(l.longEntry + tpDist, tick);
    RoundToTickNearest(l.shortEntry + slDist, tick);
    RoundToTickNearest(l.shortEntry - tpDist, tick);
  }

  // Every level is a grid price where it is configured to be: the triggers against the anchor
  // price, and stop and target against their trigger, each to within half a tick, and exactly
  // when that falls on the grid.
  lemma LevelDistances(anchor: int, triggerDist: int, tpDist: int, slDist: int, tick: int)
    requires tick > 0
    ensures var l := BuildOrderLevels(anchor, triggerDist, tpDist, slDist, tick);
      && OnGrid(l, tick)
      && -tick <= 2 * (l.longEntry - anchor - triggerDist) <= tick
      && -tick <= 2 * (anchor - l.shortEntry - triggerDist) <= tick
      && -tick <= 2 * (l.anchor - anchor) <= tick
      && ((anchor + triggerDist) % tick == 0 ==> l.longEntry == anchor + triggerDist)
      && ((anchor - triggerDist) % tick == 0 ==> l.shortEntry == anchor - triggerDist)
      && (anchor % tick == 0 ==> l.anchor == anchor)
      && -tick <= 2 * (l.longEntry - l.longSl - slDist) <= tick
      && -tick <= 2 * (l.longTp - l.longEntry - tpDist) <= tick
      && -tick <= 2 * (l.shortSl - l.shortEntry - slDist) <= tick
      && -tick <= 2 * (l.shortEntry - l.shortTp - tpDist) <= tick
      && (slDist % tick == 0 ==> l.longEntry - l.longSl == slDist == l.shortSl - l.shortEntry)
      && (tpDist % tick == 0 ==> l.longTp - l.longEntry == tpDist == l.shortEntry - l.shortTp)
      && (2 * triggerDist > tick ==> l.shortEntry < l.longEntry)
  {
    var l := BuildOrderLevels(anchor, triggerDist, tpDist, slDist, tick);
    LevelsOnGrid(anchor, triggerDist, tpDist, slDist, tick);
    TriggerDistances(anchor, triggerDist, tpDist, slDist, tick);
    StopAndTarget(anchor + triggerDist, l.longEntry, tpDist, -slDist, tick);
    StopAndTarget(anchor - triggerDist, l.shortEntry, -tpDist, slDist, tick);
  }

  // A price two distances from a grid price, snapped to the grid.
  lemma StopAndTarget(price: int, entry: int, up: int, down: int, tick: int)
    requires tick > 0 && entry == RoundToTick(price, tick)
    ensures -tick <= 2 * (RoundToTick(entry + up, tick) - entry - up) <= tick
    ensures -tick <= 2 * (RoundToTick(entry + down, tick) - entry - down) <= tick
    ensures up % tick == 0 || -up % tick == 0 ==> RoundToTick(entry + up, tick) == entry + up
    ensures down % tick == 0 || -down % tick == 0 ==> RoundToTick(entry + down, tick) == entry + down
  {
    RoundToTickNearest(price, tick);
    GridStep(entry, up, tick);
    GridStep(entry, down, tick);
  }

  lemma GridStep(entry: int, step: int, tick: int)
    requires tick > 0 && entry % tick == 0
    ensures -tick <= 2 * (RoundToTick(entry + step, tick) - entry - step) <= tick
    ensures step % tick == 0 || -step % tick == 0 ==> RoundToTick(entry + step, tick) == entry + step
  {
    RoundToTickNearest(entry + step, tick);
    if step % tick == 0 {
      MultipleSum(entry, step, tick);
    } else if -step % tick == 0 {
      MultipleSum(entry, -step, tick);
    }
  }
}

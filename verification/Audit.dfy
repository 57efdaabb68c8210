// engine/audit.py and the summary of backtest/backtest_engine.py: P&L accumulated through
// rounding. A trade's cost is whatever the cost model charges for it, in paise and not
// necessarily a whole number of them.
module Audit {
  import opened Rounding
  import opened Metrics

  datatype Entry = Entry(points: int, money: int, quantity: int, cost: real)

  datatype Books = Books(
    trades: seq<Entry>, gross: int, net: int, totalCosts: int, wins: nat, losses: nat, tracker: Tracker)

  const NEW_BOOKS := Books([], 0, 0, 0, 0, 0, EMPTY)

  function NetOf(charged: bool, e: Entry): int {
    if charged then Round(e.money as real - e.cost) else e.money
  }

  function CostsAfter(charged: bool, total: int, e: Entry): int {
    if charged then Round(total as real + e.cost) else total
  }

  function BookTrade(costModel: bool, b: Books, e: Entry): Books {
    var charged := costModel && e.quantity > 0;
    var gross, totalCosts := b.gross + e.money, CostsAfter(charged, b.totalCosts, e);
    Books(
      b.trades + [e], gross, gross - totalCosts, totalCosts,
      b.wins + (if e.points > 0 then 1 else 0), b.losses + (if e.points > 0 then 0 else 1),
      Recorded(b.tracker, NetOf(charged, e)))
  }

  function BookAll(costModel: bool, entries: seq<Entry>): Books {
    if entries == [] then NEW_BOOKS
    else BookTrade(costModel, BookAll(costModel, entries[..|entries| - 1]), entries[|entries| - 1])
  }

  function Monies(entries: seq<Entry>): seq<int> {
    seq(|entries|, i requires 0 <= i < |entries| => entries[i].money)
  }

  // How many charged trades cost exactly half a paisa more than a whole number.
  ghost function Ties(costModel: bool, entries: seq<Entry>): nat {
    if entries == [] then 0
    else
      var e := entries[|entries| - 1];
      Ties(costModel, entries[..|entries| - 1]) + if costModel && e.quantity > 0 && IsTie(e.cost) then 1 else 0
  }

  function Distance(a: int, b: int): nat { if a < b then b - a else a - b }

  // Charging one trade moves net P&L and the equity curve alike, except on a tie, where
  // they may part by one paisa.
  lemma ChargeDrift(charged: bool, b: Books, e: Entry)
    ensures var drift := (e.money - (CostsAfter(charged, b.totalCosts, e) - b.totalCosts)) - NetOf(charged, e);
      -1 <= drift <= 1 && (!charged || !IsTie(e.cost) ==> drift == 0)
  {
    RoundShift(b.totalCosts, e.cost);
    RoundShift(e.money, e.cost);
  }

  lemma TradeBooked(costModel: bool, b: Books, e: Entry)
    requires b.net == b.gross - b.totalCosts
    ensures var n := BookTrade(costModel, b, e);
      && n.net == n.gross - n.totalCosts && n.gross == b.gross + e.money && n.wins + n.losses == b.wins + b.losses + 1
      && Distance(n.net, n.tracker.cumulative)
         <= Distance(b.net, b.tracker.cumulative) + if costModel && e.quantity > 0 && IsTie(e.cost) then 1 else 0
  {
    ChargeDrift(costModel && e.quantity > 0, b, e);
  }

  ghost predicate Conserved(costModel: bool, entries: seq<Entry>, b: Books) {
    && b.trades == entries && b.wins + b.losses == |entries|
    && b.gross == Sum(Monies(entries)) && b.net == b.gross - b.totalCosts
    && Distance(b.net, b.tracker.cumulative) <= Ties(costModel, entries) <= |entries|
  }

  lemma MoniesNext(front: seq<Entry>, e: Entry)
    ensures Sum(Monies(front + [e])) == Sum(Monies(front)) + e.money
  {
    assert Monies(front + [e])[..|front|] == Monies(front);
  }

  lemma TiesNext(costModel: bool, front: seq<Entry>, e: Entry)
    ensures Ties(costModel, front + [e])
            == Ties(costModel, front) + if costModel && e.quantity > 0 && IsTie(e.cost) then 1 else 0
  {
    assert (front + [e])[..|front|] == front;
  }

  lemma ConservedNext(costModel: bool, front: seq<Entry>, b: Books, e: Entry)
    requires Conserved(costModel, front, b)
    ensures Conserved(costModel, front + [e], BookTrade(costModel, b, e))
  {
    MoniesNext(front, e);
    TiesNext(costModel, front, e);
    TradeBooked(costModel, b, e);
  }

  // Over any trades: gross is their sum, wins and losses count every trade once, and net P&L
  // and the last equity point differ by no more than one paisa per half-paisa tie.
  lemma {:induction false} Conservation(costModel: bool, entries: seq<Entry>)
    ensures var b := BookAll(costModel, entries);
      && b.trades == entries && b.wins + b.losses == |entries|
      && b.gross == Sum(Monies(entries)) && b.net == b.gross - b.totalCosts
      && Distance(b.net, b.tracker.cumulative) <= Ties(costModel, entries) <= |entries|
  {
    if entries != [] {
      var front, last := entries[..|entries| - 1], entries[|entries| - 1];
      Conservation(costModel, front);
      ConservedNext(costModel, front, BookAll(costModel, front), last);
      assert front + [last] == entries;
    }
  }

  lemma NoTiesNoDrift(costModel: bool, entries: seq<Entry>)
    requires forall i :: 0 <= i < |entries| ==> !IsTie(entries[i].cost)
    ensures BookAll(costModel, entries).net == BookAll(costModel, entries).tracker.cumulative
  {
    Conservation(costModel, entries);
    NoTies(costModel, entries);
  }

  lemma {:induction false} NoTies(costModel: bool, entries: seq<Entry>)
    requires forall i :: 0 <= i < |entries| ==> !IsTie(entries[i].cost)
    ensures Ties(costModel, entries) == 0
  {
    if entries != [] {
      NoTies(costModel, entries[..|entries| - 1]);
    }
  }

  // ---- against the exact costs ----

  // What the trades cost in all, before any rounding, and how many were charged.
  function ExactCost(costModel: bool, entries: seq<Entry>): real {
    if entries == [] then 0.0
    else
      var e := entries[|entries| - 1];
      ExactCost(costModel, entries[..|entries| - 1]) + if costModel && e.quantity > 0 then e.cost else 0.0
  }

  function ChargedTrades(costModel: bool, entries: seq<Entry>): nat {
    if entries == [] then 0
    else
      ChargedTrades(costModel, entries[..|entries| - 1])
      + if costModel && entries[|entries| - 1].quantity > 0 then 1 else 0
  }

  function WinningTrades(entries: seq<Entry>): nat {
    if entries == [] then 0
    else WinningTrades(entries[..|entries| - 1]) + if entries[|entries| - 1].points > 0 then 1 else 0
  }

  // Off by no more than half a paisa for each of `n` trades.
  predicate HalfEach(booked: int, exact: real, n: int) {
    -(n as real) <= 2.0 * (booked as real - exact) <= n as real
  }

  lemma CostBooked(costModel: bool, b: Books, e: Entry, cost: real, gross: int, n: nat)
    requires b.gross == gross && HalfEach(b.totalCosts, cost, n)
    requires HalfEach(b.tracker.cumulative, gross as real - cost, n)
    ensures var charged := costModel && e.quantity > 0;
      var next, m := BookTrade(costModel, b, e), n + if charged then 1 else 0;
      var total := cost + if charged then e.cost else 0.0;
      && HalfEach(next.totalCosts, total, m)
      && HalfEach(next.tracker.cumulative, (gross + e.money) as real - total, m)
  {
    RoundNearest(b.totalCosts as real + e.cost);
    RoundNearest(e.money as real - e.cost);
  }

  // Over any trades: the costs booked, the net P&L and the last equity point are each within
  // half a paisa per charged trade of what they would be without rounding; and the wins are
  // the trades that gained.
  lemma {:induction false} CostsAddUp(costModel: bool, entries: seq<Entry>)
    ensures var b, cost := BookAll(costModel, entries), ExactCost(costModel, entries);
      var n := ChargedTrades(costModel, entries);
      && HalfEach(b.totalCosts, cost, n)
      && HalfEach(b.net, Sum(Monies(entries)) as real - cost, n)
      && HalfEach(b.tracker.cumulative, Sum(Monies(entries)) as real - cost, n)
      && b.wins == WinningTrades(entries)
  {
    Conservation(costModel, entries);
    if entries != [] {
      var front, last := entries[..|entries| - 1], entries[|entries| - 1];
      var b := BookAll(costModel, front);
      CostsAddUp(costModel, front);
      Conservation(costModel, front);
      assert entries == front + [last];
      MoniesNext(front, last);
      CostBooked(costModel, b, last, ExactCost(costModel, front), b.gross, ChargedTrades(costModel, front));
    }
  }

  // The equity curve of the books is the tracker's over the rounded net of each trade.
  function Nets(costModel: bool, entries: seq<Entry>): seq<int> {
    seq(|entries|, i requires 0 <= i < |entries| => NetOf(costModel && entries[i].quantity > 0, entries[i]))
  }

  lemma {:induction false} BooksTrackNets(costModel: bool, entries: seq<Entry>)
    ensures BookAll(costModel, entries).tracker == Track(Nets(costModel, entries))
  {
    if entries != [] {
      var n := |entries| - 1;
      BooksTrackNets(costModel, entries[..n]);
      assert Nets(costModel, entries)[..n] == Nets(costModel, entries[..n]);
    }
  }

  datatype Summary = Summary(
    trades: nat, wins: nat, losses: nat, points: int, gross: int, net: int, costs: int, tracker: Tracker)

  function PointsOf(entries: seq<Entry>): seq<int> {
    seq(|entries|, i requires 0 <= i < |entries| => entries[i].points)
  }

  class DailyAudit {
    const costModel: bool
    const drawdown: DrawdownTracker
    var trades: seq<Entry>
    var grossPnl: int
    var netPnl: int
    var totalCosts: int
    var wins: nat
    var losses: nat

    constructor (costModel: bool)
      ensures View() == NEW_BOOKS && this.costModel == costModel && fresh(drawdown)
    {
      this.costModel := costModel;
      drawdown := new DrawdownTracker();
      trades, grossPnl, netPnl, totalCosts, wins, losses := [], 0, 0, 0, 0, 0;
    }

    function View(): Books
      reads this, drawdown
    {
      Books(trades, grossPnl, netPnl, totalCosts, wins, losses, drawdown.View())
    }

    method RecordTrade(e: Entry)
      modifies this, drawdown
      ensures View() == BookTrade(costModel, old(View()), e)
    {
      var net;
      if costModel && e.quantity > 0 {
        net := Round(e.money as real - e.cost);
        totalCosts := Round(totalCosts as real + e.cost);
      } else {
        net := e.money;
      }
      trades := trades + [e];
      grossPnl := grossPnl + e.money;
      netPnl := grossPnl - totalCosts;
      if e.points > 0 {
        wins := wins + 1;
      } else {
        losses := losses + 1;
      }
      drawdown.Record(net);
    }
  }

  lemma BookNext(costModel: bool, entries: seq<Entry>, i: nat)
    requires i < |entries|
    ensures BookAll(costModel, entries[..i + 1]) == BookTrade(costModel, BookAll(costModel, entries[..i]), entries[i])
    ensures Sum(PointsOf(entries[..i + 1])) == Sum(PointsOf(entries[..i])) + entries[i].points
  {
    assert entries[..i + 1][..i] == entries[..i];
    assert PointsOf(entries[..i + 1])[..i] == PointsOf(entries[..i]);
  }

  // The backtest charges every trade once a cost model is attached, whatever its quantity.
  function Charged(entries: seq<Entry>): (charged: seq<Entry>)
    ensures |charged| == |entries|
    ensures forall i :: 0 <= i < |charged| ==> charged[i] == entries[i].(quantity := 1)
  {
    seq(|entries|, i requires 0 <= i < |entries| => entries[i].(quantity := 1))
  }

  // The audit's totals for the same trades, each of them charged.
  function SummaryOf(costModel: bool, entries: seq<Entry>): Summary {
    var b := BookAll(costModel, Charged(entries));
    Summary(|entries|, b.wins, b.losses, Sum(PointsOf(entries)), b.gross, b.net, b.totalCosts, b.tracker)
  }

  lemma SummaryConserves(costModel: bool, entries: seq<Entry>)
    ensures var s := SummaryOf(costModel, entries);
      && s.wins + s.losses == s.trades && s.gross == Sum(Monies(entries)) && s.net == s.gross - s.costs
      && Distance(s.net, s.tracker.cumulative) <= s.trades
      && s.tracker == Track(Nets(costModel, Charged(entries)))
  {
    assert Monies(Charged(entries)) == Monies(entries);
    Conservation(costModel, Charged(entries));
    BooksTrackNets(costModel, Charged(entries));
  }

  lemma ChargedPrefix(entries: seq<Entry>, i: nat)
    requires i <= |entries|
    ensures Charged(entries)[..i] == Charged(entries[..i])
    ensures PointsOf(Charged(entries)[..i]) == PointsOf(entries[..i])
  {
  }

  lemma ChargedTrade(costModel: bool, b: Books, e: Entry)
    ensures var n := BookTrade(costModel, b, e.(quantity := 1));
      && n.wins == b.wins + (if e.points > 0 then 1 else 0) && n.losses == b.losses + (if e.points > 0 then 0 else 1)
      && n.gross == b.gross + e.money && n.totalCosts == CostsAfter(costModel, b.totalCosts, e)
      && n.net == n.gross - n.totalCosts && n.tracker == Recorded(b.tracker, NetOf(costModel, e))
  {
  }

  // The summary after one more trade.
  lemma SummaryNext(costModel: bool, entries: seq<Entry>, i: nat)
    requires i < |entries|
    ensures var s, e := SummaryOf(costModel, entries[..i]), entries[i];
      var costs := CostsAfter(costModel, s.costs, e);
      SummaryOf(costModel, entries[..i + 1])
      == Summary(i + 1, s.wins + (if e.points > 0 then 1 else 0), s.losses + (if e.points > 0 then 0 else 1),
                 s.points + e.points, s.gross + e.money, s.gross + e.money - costs, costs,
                 Recorded(s.tracker, NetOf(costModel, e)))
  {
    var charged := Charged(entries);
    BookNext(costModel, charged, i);
    ChargedPrefix(entries, i);
    ChargedPrefix(entries, i + 1);
    ChargedTrade(costModel, BookAll(costModel, charged[..i]), entries[i]);
  }

  // The backtest's summary loop.
  method Summarize(costModel: bool, entries: seq<Entry>) returns (s: Summary)
    ensures s == SummaryOf(costModel, entries)
  {
    var tracker := new DrawdownTracker();
    var wins: nat, losses: nat, points, gross, costs := 0, 0, 0, 0, 0;
    for i := 0 to |entries|
      invariant fresh(tracker)
      invariant SummaryOf(costModel, entries[..i])
                == Summary(i, wins, losses, points, gross, gross - costs, costs, tracker.View())
    {
      SummaryNext(costModel, entries, i);
      var e := entries[i];
      var net := NetOf(costModel, e);
      costs := CostsAfter(costModel, costs, e);
      if e.points > 0 {
        wins := wins + 1;
      } else {
        losses := losses + 1;
      }
      points, gross := points + e.points, gross + e.money;
      tracker.Record(net);
    }
    assert entries[..|entries|] == entries;
    s := Summary(|entries|, wins, losses, points, gross, gross - costs, costs, tracker.View());
  }
}

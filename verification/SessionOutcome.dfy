// A whole backtest session in terms of its parts: the first bar after the anchor bar that
// names a side opens the trade, and the rest of the session's bars, replayed once, close it.
module SessionOutcome {
  import opened Wrappers
  import Rounding
  import opened Levels
  import opened StrategyRunner
  import opened TradeOutcome
  import opened BarResolution
  import opened BacktestEngine

  lemma {:induction false} PartsCons(ws: seq<Window>)
    requires ws != []
    ensures Parts(ws) == ws[0].parts + Parts(ws[1..])
  {
    var n := |ws| - 1;
    if n > 0 {
      PartsCons(ws[..n]);
      assert ws[..n][1..] == ws[1..][..n - 1];
    }
  }

  // Windows do not matter once a position is open: only the bars inside them, in order.
  lemma {:induction false} ScanHeldIsReplay(c: Config, symbol: Symbol, levels: OrderLevels, quantity: int,
      p: Position, ws: seq<Window>)
    ensures Scan(c, symbol, levels, quantity, Some(p), ws) == Replay(c, p, Parts(ws)).trade
    decreases |ws|
  {
    if ws != [] {
      PartsCons(ws);
      ReplayConcat(c, p, ws[0].parts, Parts(ws[1..]));
      var o := Replay(c, p, ws[0].parts);
      if o.trade.None? {
        ScanHeldIsReplay(c, symbol, levels, quantity, o.position, ws[1..]);
      }
    }
  }

  // The first window whose bar names a side, or the number of windows.
  function FirstEntry(symbol: Symbol, levels: OrderLevels, quantity: int, ws: seq<Window>): (i: nat)
    ensures i <= |ws|
    ensures forall j :: 0 <= j < i ==> DetectEntry(symbol, levels, ws[j].bar, quantity).None?
    ensures i < |ws| ==> DetectEntry(symbol, levels, ws[i].bar, quantity).Some?
  {
    if ws == [] || DetectEntry(symbol, levels, ws[0].bar, quantity).Some? then 0
    else 1 + FirstEntry(symbol, levels, quantity, ws[1..])
  }

  // The trade of the replay a first entry at window `i` leads to.
  function EntryTrade(c: Config, symbol: Symbol, levels: OrderLevels, quantity: int, ws: seq<Window>, i: nat)
      : Option<Trade>
    requires i <= |ws| && (i < |ws| ==> DetectEntry(symbol, levels, ws[i].bar, quantity).Some?)
  {
    if i == |ws| then None
    else Replay(c, DetectEntry(symbol, levels, ws[i].bar, quantity).value, Parts(ws[i + 1..])).trade
  }

  lemma EntryTradeTail(c: Config, symbol: Symbol, levels: OrderLevels, quantity: int, ws: seq<Window>, i: nat)
    requires ws != [] && i < |ws| && (i < |ws| - 1 ==> DetectEntry(symbol, levels, ws[i + 1].bar, quantity).Some?)
    ensures EntryTrade(c, symbol, levels, quantity, ws, i + 1) == EntryTrade(c, symbol, levels, quantity, ws[1..], i)
  {
    if i < |ws| - 1 {
      assert ws[1..][i + 1..] == ws[i + 2..];
    }
  }

  lemma {:induction false} ScanFlatFindsEntry(c: Config, symbol: Symbol, levels: OrderLevels, quantity: int,
      ws: seq<Window>)
    ensures Scan(c, symbol, levels, quantity, None, ws)
            == EntryTrade(c, symbol, levels, quantity, ws, FirstEntry(symbol, levels, quantity, ws))
    decreases |ws|
  {
    if ws != [] {
      var entered := DetectEntry(symbol, levels, ws[0].bar, quantity);
      if entered.Some? {
        ScanHeldIsReplay(c, symbol, levels, quantity, entered.value, ws[1..]);
      } else {
        ScanFlatFindsEntry(c, symbol, levels, quantity, ws[1..]);
        EntryTradeTail(c, symbol, levels, quantity, ws, FirstEntry(symbol, levels, quantity, ws[1..]));
      }
    }
  }

  // ---- a session in terms of its bars ----

  // The minute a configured time falls in: its seconds are dropped.
  predicate InMinute(time: int, sec: int) { time - time % 60 <= sec < time - time % 60 + 60 }

  function Flatten(parts: seq<seq<Bar>>): seq<Bar> {
    if parts == [] then [] else Flatten(parts[..|parts| - 1]) + parts[|parts| - 1]
  }

  // The bars a position entered on bar `e` is judged on: the later one-minute bars where the
  // session has them, and otherwise its later bars.
  function BarsAfter(s: Session, e: nat): seq<Bar>
    requires s.Aligned() && e < |s.bars|
  {
    if s.m1.Some? then Flatten(s.m1.value[e + 1..]) else s.bars[e + 1..]
  }

  lemma {:induction false} PartsFlatten(ws: seq<Window>, parts: seq<seq<Bar>>)
    requires |ws| == |parts| && forall i :: 0 <= i < |ws| ==> ws[i].parts == parts[i]
    ensures Parts(ws) == Flatten(parts)
  {
    if ws != [] {
      PartsFlatten(ws[..|ws| - 1], parts[..|ws| - 1]);
    }
  }

  lemma {:induction false} PartsOfSingles(ws: seq<Window>)
    requires forall i :: 0 <= i < |ws| ==> ws[i].parts == [ws[i].bar]
    ensures Parts(ws) == Bars(ws)
  {
    if ws != [] {
      var n := |ws| - 1;
      PartsOfSingles(ws[..n]);
      assert Bars(ws) == Bars(ws[..n]) + [ws[n].bar];
    }
  }

  lemma PartsAfter(s: Session, e: nat)
    requires s.Aligned() && e < |s.bars|
    ensures Parts(Windows(s)[e + 1..]) == BarsAfter(s, e)
  {
    var ws := Windows(s)[e + 1..];
    if s.m1.Some? {
      PartsFlatten(ws, s.m1.value[e + 1..]);
    } else {
      PartsOfSingles(ws);
      assert Bars(ws) == s.bars[e + 1..];
    }
  }

  lemma {:induction false} AnchorIsFirst(c: Config, ws: seq<Window>)
    ensures var a := AnchorIndex(c, ws);
      && (forall j :: 0 <= j < a ==> !InMinute(c.anchorTime, ws[j].bar.time.sec))
      && (a < |ws| ==> InMinute(c.anchorTime, ws[a].bar.time.sec))
  {
    if ws != [] {
      SameMinute(c.anchorTime, ws[0].bar.time.sec);
      if !AtAnchorMinute(c, ws[0].bar) {
        AnchorIsFirst(c, ws[1..]);
      }
    }
  }

  lemma SameMinute(time: int, sec: int)
    ensures sec / 60 == time / 60 <==> InMinute(time, sec)
  {
  }

  // Bar `a` is the session's anchor bar: the first in the anchor minute.
  ghost predicate AnchorBar(c: Config, s: Session, a: int) {
    && 0 <= a < |s.bars| && InMinute(c.anchorTime, s.bars[a].time.sec)
    && forall j :: 0 <= j < a ==> !InMinute(c.anchorTime, s.bars[j].time.sec)
  }

  // Bar `j` reaches one of the two triggers built on bar `a`'s open, and not the other.
  ghost predicate NamesSide(c: Config, s: Session, a: int, j: int)
    requires 0 <= a < |s.bars| && 0 <= j < |s.bars|
  {
    var l := BuildLevels(c, s.bars[a].open);
    ReachesOne(l.longEntry, l.shortEntry, s.bars[j])
  }

  // Bar `e` is the first after the anchor bar to name a side, `p` the position it opens, and
  // `o` what the bars after it, replayed once, make of that position.
  ghost predicate Entered(c: Config, symbol: Symbol, quantity: int, s: Session, a: int, e: int, p: Position, o: Outcome)
    requires s.Aligned()
  {
    && AnchorBar(c, s, a) && a < e < |s.bars| && NamesSide(c, s, a, e)
    && (forall j :: a < j < e ==> !NamesSide(c, s, a, j))
    && OpenedBy(c, symbol, s.bars[a].open, s.bars[e], quantity, p)
    && o == Replay(c, p, BarsAfter(s, e))
  }

  ghost predicate NeverEntered(c: Config, s: Session) {
    || (forall j :: 0 <= j < |s.bars| ==> !InMinute(c.anchorTime, s.bars[j].time.sec))
    || (exists a :: AnchorBar(c, s, a) && forall j :: a < j < |s.bars| ==> !NamesSide(c, s, a, j))
  }

  lemma EntryOfSession(c: Config, symbol: Symbol, quantity: int, s: Session, a: nat)
    requires s.Aligned() && a == AnchorIndex(c, Windows(s)) < |s.bars|
    ensures var later := Windows(s)[a + 1..];
      var i := FirstEntry(symbol, BuildLevels(c, s.bars[a].open), quantity, later);
      && (forall j :: a < j < a + 1 + i ==> !NamesSide(c, s, a, j))
      && (a + 1 + i < |s.bars| ==> NamesSide(c, s, a, a + 1 + i))
  {
    var levels, later := BuildLevels(c, s.bars[a].open), Windows(s)[a + 1..];
    var i := FirstEntry(symbol, levels, quantity, later);
    forall j | a < j < |s.bars|
      ensures NamesSide(c, s, a, j) <==> DetectEntry(symbol, levels, later[j - a - 1].bar, quantity).Some?
    {
      EntryExplained(c, symbol, s.bars[a].open, s.bars[j], quantity);
    }
  }

  lemma AnchorBarIs(c: Config, s: Session)
    requires s.Aligned()
    ensures var a := AnchorIndex(c, Windows(s));
      if a < |s.bars| then AnchorBar(c, s, a)
      else forall j :: 0 <= j < |s.bars| ==> !InMinute(c.anchorTime, s.bars[j].time.sec)
  {
    var ws := Windows(s);
    AnchorIsFirst(c, ws);
    forall j | 0 <= j < AnchorIndex(c, ws) ensures !InMinute(c.anchorTime, s.bars[j].time.sec) {
      assert ws[j].bar == s.bars[j];
    }
  }

  // From its anchor bar on, a session does what `trade` says.
  ghost predicate SessionFrom(c: Config, symbol: Symbol, quantity: int, s: Session, trade: Option<Trade>)
    requires s.Aligned()
  {
    || (NeverEntered(c, s) && trade.None?)
    || exists a, e, p, o :: Entered(c, symbol, quantity, s, a, e, p, o) && trade == o.trade
  }

  lemma AnchoredSession(c: Config, symbol: Symbol, quantity: int, s: Session, a: nat)
    requires s.Aligned() && a == AnchorIndex(c, Windows(s)) < |s.bars| && AnchorBar(c, s, a)
    ensures var levels, later := BuildLevels(c, s.bars[a].open), Windows(s)[a + 1..];
      SessionFrom(c, symbol, quantity, s,
                  EntryTrade(c, symbol, levels, quantity, later, FirstEntry(symbol, levels, quantity, later)))
  {
    var levels, later := BuildLevels(c, s.bars[a].open), Windows(s)[a + 1..];
    var i := FirstEntry(symbol, levels, quantity, later);
    EntryOfSession(c, symbol, quantity, s, a);
    if i < |later| {
      var p, o := EnteredSession(c, symbol, quantity, s, a, i);
    }
  }

  // A session either has no anchor bar or no later bar that names a side, and no trade; or the
  // first such bar opens a position, and what the session returns is what one replay of the
  // bars after it returns.
  lemma SessionExplained(c: Config, symbol: Symbol, quantity: int, s: Session)
    requires s.Aligned()
    ensures var trade := SessionTrade(c, symbol, quantity, Windows(s));
      || (NeverEntered(c, s) && trade.None?)
      || exists a, e, p, o :: Entered(c, symbol, quantity, s, a, e, p, o) && trade == o.trade
  {
    var ws := Windows(s);
    var a := AnchorIndex(c, ws);
    AnchorBarIs(c, s);
    if a < |ws| {
      AnchoredSession(c, symbol, quantity, s, a);
      ScanFlatFindsEntry(c, symbol, BuildLevels(c, s.bars[a].open), quantity, ws[a + 1..]);
    }
    assert SessionFrom(c, symbol, quantity, s, SessionTrade(c, symbol, quantity, ws));
  }

  lemma EnteredSession(c: Config, symbol: Symbol, quantity: int, s: Session, a: nat, i: nat)
      returns (p: Position, o: Outcome)
    requires s.Aligned() && AnchorBar(c, s, a) && a + 1 + i < |s.bars|
    requires NamesSide(c, s, a, a + 1 + i) && forall j :: a < j < a + 1 + i ==> !NamesSide(c, s, a, j)
    requires var levels, later := BuildLevels(c, s.bars[a].open), Windows(s)[a + 1..];
      DetectEntry(symbol, levels, later[i].bar, quantity).Some?
    ensures Entered(c, symbol, quantity, s, a, a + 1 + i, p, o)
    ensures var levels, later := BuildLevels(c, s.bars[a].open), Windows(s)[a + 1..];
      o.trade == EntryTrade(c, symbol, levels, quantity, later, i)
  {
    var later, e := Windows(s)[a + 1..], a + 1 + i;
    assert later[i] == Windows(s)[e];
    p := OpensPosition(c, symbol, quantity, s, a, e);
    o := Replay(c, p, BarsAfter(s, e));
    TailParts(s, a, i);
    EnteredBy(c, symbol, quantity, s, a, e, p);
  }

  lemma OpensPosition(c: Config, symbol: Symbol, quantity: int, s: Session, a: nat, e: nat) returns (p: Position)
    requires a < e < |s.bars| && NamesSide(c, s, a, e)
    ensures DetectEntry(symbol, BuildLevels(c, s.bars[a].open), s.bars[e], quantity) == Some(p)
    ensures OpenedBy(c, symbol, s.bars[a].open, s.bars[e], quantity, p)
  {
    EntryExplained(c, symbol, s.bars[a].open, s.bars[e], quantity);
    p := DetectEntry(symbol, BuildLevels(c, s.bars[a].open), s.bars[e], quantity).value;
  }

  lemma TailParts(s: Session, a: nat, i: nat)
    requires s.Aligned() && a + 1 + i < |s.bars|
    ensures Parts(Windows(s)[a + 1..][i + 1..]) == BarsAfter(s, a + 1 + i)
  {
    PartsAfter(s, a + 1 + i);
    assert Windows(s)[a + 1..][i + 1..] == Windows(s)[a + 1 + i + 1..];
  }

  lemma EnteredBy(c: Config, symbol: Symbol, quantity: int, s: Session, a: nat, e: nat, p: Position)
    requires s.Aligned() && AnchorBar(c, s, a) && a < e < |s.bars| && NamesSide(c, s, a, e)
    requires forall j :: a < j < e ==> !NamesSide(c, s, a, j)
    requires OpenedBy(c, symbol, s.bars[a].open, s.bars[e], quantity, p)
    ensures Entered(c, symbol, quantity, s, a, e, p, Replay(c, p, BarsAfter(s, e)))
  {
  }

  lemma {:induction false} FlattenWellFormed(parts: seq<seq<Bar>>)
    requires forall i :: 0 <= i < |parts| ==> AllWellFormed(parts[i])
    ensures AllWellFormed(Flatten(parts))
  {
    if parts != [] {
      FlattenWellFormed(parts[..|parts| - 1]);
    }
  }

  ghost predicate SessionWellFormed(s: Session) {
    && AllWellFormed(s.bars)
    && (s.m1.Some? ==> forall i :: 0 <= i < |s.m1.value| ==> AllWellFormed(s.m1.value[i]))
  }

  lemma EnteredEarns(c: Config, symbol: Symbol, quantity: int, s: Session, a: int, e: int, p: Position, o: Outcome)
    requires c.slDist + c.tpDist > c.tickSize && s.Aligned() && SessionWellFormed(s)
    requires Entered(c, symbol, quantity, s, a, e, p, o)
    ensures StopShortOfTarget(p) && (o.trade.Some? ==> Explained(c, p, o.position.sl, o.trade.value))
  {
    if s.m1.Some? {
      FlattenWellFormed(s.m1.value[e + 1..]);
    }
    OutcomeBound(c, p, BarsAfter(s, e));
  }

  // And that trade earned what its exit reason allows, against levels at their configured
  // distances from the anchor bar's open.
  lemma SessionTradeExplained(c: Config, symbol: Symbol, quantity: int, s: Session)
    requires c.slDist + c.tpDist > c.tickSize && s.Aligned() && SessionWellFormed(s)
    ensures var trade := SessionTrade(c, symbol, quantity, Windows(s));
      trade.Some? ==> exists a, e, p, o ::
        Entered(c, symbol, quantity, s, a, e, p, o) && trade == o.trade
        && StopShortOfTarget(p) && Explained(c, p, o.position.sl, trade.value)
  {
    var trade := SessionTrade(c, symbol, quantity, Windows(s));
    SessionExplained(c, symbol, quantity, s);
    if trade.Some? {
      var a, e, p, o :| Entered(c, symbol, quantity, s, a, e, p, o) && trade == o.trade;
      EnteredEarns(c, symbol, quantity, s, a, e, p, o);
    }
  }

  // Repricing changes the money alone: to points by quantity by money per point, rounded half
  // to even.
  lemma PricedHalfEven(t: Trade, moneyPerPoint: real)
    ensures var n := PricedTrade(Some(t), moneyPerPoint);
      && n.Some? && n.value == t.(money := n.value.money)
      && Rounding.IsHalfEven(t.points as real * t.quantity as real * moneyPerPoint, n.value.money)
  {
    Rounding.RoundIsHalfEven(Earned(t, moneyPerPoint), ApplyMoney(t, moneyPerPoint).money);
  }

  // The same session judged on its five-minute bars alone.
  function Coarsened(ws: seq<Window>): (coarse: seq<Window>)
    ensures |coarse| == |ws|
  {
    seq(|ws|, i requires 0 <= i < |ws| => Window(ws[i].bar, [ws[i].bar]))
  }

  lemma {:induction false} CoarsenedParts(ws: seq<Window>)
    ensures Parts(Coarsened(ws)) == Bars(ws)
  {
    if ws != [] {
      var n := |ws| - 1;
      CoarsenedParts(ws[..n]);
      assert Coarsened(ws)[..n] == Coarsened(ws[..n]);
      assert Bars(ws) == Bars(ws[..n]) + [ws[n].bar];
    }
  }

  lemma {:induction false} CoarsenedEntry(symbol: Symbol, levels: OrderLevels, quantity: int, ws: seq<Window>)
    ensures FirstEntry(symbol, levels, quantity, Coarsened(ws)) == FirstEntry(symbol, levels, quantity, ws)
  {
    if ws != [] {
      assert Coarsened(ws)[1..] == Coarsened(ws[1..]);
      CoarsenedEntry(symbol, levels, quantity, ws[1..]);
    }
  }

  lemma {:induction false} CoarsenedAnchor(c: Config, ws: seq<Window>)
    ensures AnchorIndex(c, Coarsened(ws)) == AnchorIndex(c, ws)
  {
    if ws != [] {
      assert Coarsened(ws)[1..] == Coarsened(ws[1..]);
      CoarsenedAnchor(c, ws[1..]);
    }
  }

  // What a coarse close says of the fine run of the same windows.
  ghost predicate FineClosesToo(ws: seq<Window>, coarse: Option<Trade>, fine: Option<Trade>) {
    coarse.Some? && (AllEndInTime(ws) || !coarse.value.reason.SquareOff?) ==> fine.Some?
  }

  ghost predicate StopBehindEntry(p: Position) {
    p.Fresh() && p.Gain(p.sl) <= 0
  }

  // Once both hold the same position, the one-minute bars close it if the five-minute ones do.
  lemma FineClosesHeld(c: Config, p: Position, rest: seq<Window>)
    requires StopBehindEntry(p) && AllPartition(rest)
    ensures FineClosesToo(rest, Replay(c, p, Parts(Coarsened(rest))).trade, Replay(c, p, Parts(rest)).trade)
  {
    CoarsenedParts(rest);
    assert rest[..|rest|] == rest;
    FineExitsFirst(c, p, rest, |rest|);
  }

  lemma EntersBehind(c: Config, symbol: Symbol, open: int, bar: Bar, quantity: int)
    requires 2 * c.slDist >= c.tickSize
    ensures var entered := DetectEntry(symbol, BuildLevels(c, open), bar, quantity);
      entered.Some? ==> StopBehindEntry(entered.value)
  {
    LevelDistances(open, c.triggerDist, c.tpDist, c.slDist, c.tickSize);
  }

  lemma FromWindow(ws: seq<Window>, i: nat)
    requires i <= |ws|
    ensures AllPartition(ws) ==> AllPartition(ws[i..])
    ensures AllEndInTime(ws) ==> AllEndInTime(ws[i..])
    ensures Coarsened(ws)[i..] == Coarsened(ws[i..])
  {
  }

  lemma FineClosesEntry(c: Config, symbol: Symbol, levels: OrderLevels, quantity: int, later: seq<Window>, i: nat)
    requires i < |later| && AllPartition(later)
    requires DetectEntry(symbol, levels, later[i].bar, quantity).Some?
    requires StopBehindEntry(DetectEntry(symbol, levels, later[i].bar, quantity).value)
    ensures FineClosesToo(later, EntryTrade(c, symbol, levels, quantity, Coarsened(later), i),
                          EntryTrade(c, symbol, levels, quantity, later, i))
  {
    FromWindow(later, i + 1);
    FineClosesHeld(c, DetectEntry(symbol, levels, later[i].bar, quantity).value, later[i + 1..]);
  }

  lemma FineClosesScan(c: Config, symbol: Symbol, levels: OrderLevels, quantity: int, later: seq<Window>)
    requires AllPartition(later)
    requires var i := FirstEntry(symbol, levels, quantity, later);
      i < |later| ==> StopBehindEntry(DetectEntry(symbol, levels, later[i].bar, quantity).value)
    ensures FineClosesToo(later, Scan(c, symbol, levels, quantity, None, Coarsened(later)),
                          Scan(c, symbol, levels, quantity, None, later))
  {
    ScanFlatFindsEntry(c, symbol, levels, quantity, later);
    ScanFlatFindsEntry(c, symbol, levels, quantity, Coarsened(later));
    CoarsenedEntry(symbol, levels, quantity, later);
    var i := FirstEntry(symbol, levels, quantity, later);
    if i < |later| {
      FineClosesEntry(c, symbol, levels, quantity, later, i);
    }
  }

  // A session the five-minute backtest closes at a stop or target, the one-minute backtest of
  // the same session closes too; and where one-minute bars end with their five-minute bar, so
  // does it close one squared off.
  lemma OneMinuteSessionCloses(c: Config, symbol: Symbol, quantity: int, ws: seq<Window>)
    requires 2 * c.slDist >= c.tickSize && AllPartition(ws)
    ensures FineClosesToo(ws, SessionTrade(c, symbol, quantity, Coarsened(ws)), SessionTrade(c, symbol, quantity, ws))
  {
    CoarsenedAnchor(c, ws);
    var a := AnchorIndex(c, ws);
    if a < |ws| {
      FromWindow(ws, a + 1);
      var later, levels := ws[a + 1..], BuildLevels(c, ws[a].bar.open);
      var i := FirstEntry(symbol, levels, quantity, later);
      if i < |later| {
        EntersBehind(c, symbol, ws[a].bar.open, later[i].bar, quantity);
      }
      FineClosesScan(c, symbol, levels, quantity, later);
    }
  }
}

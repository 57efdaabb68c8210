// engine/anchor_engine.py: one anchor per symbol and day, surviving a restart.
module AnchorEngine {
  import opened Wrappers
  import StateStore
  import opened StrategyRunner

  datatype AnchorRecord = AnchorRecord(symbol: Symbol, price: int, capturedAt: Stamp, sourceBarTime: Stamp)

  datatype AnchorConfig = AnchorConfig(anchorTime: int, windowSeconds: int, tradingOpen: int, tradingClose: int)

  type AnchorFile = map<int, map<Symbol, AnchorRecord>>

  // The in-memory cache, the day it is bound to, and the file.
  datatype Anchors = Anchors(today: map<Symbol, AnchorRecord>, day: Option<int>, disk: AnchorFile)

  // A configured time of day on the clock's own day; its seconds are dropped.
  function TodayAt(time: int): int { time - time % 60 }

  predicate MayCapture(c: AnchorConfig, now: Stamp) {
    && c.tradingOpen <= now.sec <= c.tradingClose
    && TodayAt(c.anchorTime) <= now.sec <= TodayAt(c.anchorTime) + c.windowSeconds
  }

  function OnDisk(disk: AnchorFile, day: int): map<Symbol, AnchorRecord> {
    if day in disk then disk[day] else map[]
  }

  // Bind to `day`, reading its anchors back and dropping every other day from the file.
  function Rolled(a: Anchors, day: int): Anchors {
    if a.day == Some(day) then a
    else
      var today := OnDisk(a.disk, day);
      Anchors(today, Some(day), if a.disk.Keys <= {day} then a.disk else map[day := today])
  }

  predicate ShouldCapture(c: AnchorConfig, a: Anchors, symbol: Symbol, now: Stamp) {
    symbol !in Rolled(a, now.day).today && MayCapture(c, now)
  }

  function Captured(a: Anchors, record: AnchorRecord): Anchors {
    var day := record.capturedAt.day;
    var today := Rolled(a, day).today[record.symbol := record];
    Anchors(today, Some(day), map[day := today])
  }

  // Poll the gate and capture if it opens.
  function GatedTick(c: AnchorConfig, a: Anchors, symbol: Symbol, price: int, source: Stamp, now: Stamp): Anchors {
    if ShouldCapture(c, a, symbol, now) then Captured(a, AnchorRecord(symbol, price, now, source))
    else Rolled(a, now.day)
  }

  class Engine {
    const config: AnchorConfig
    const store: StateStore.StateStore<AnchorFile>
    var anchorsToday: map<Symbol, AnchorRecord>
    var currentDay: Option<int>

    // A new process: nothing in memory, the file as it was.
    constructor (config: AnchorConfig, store: StateStore.StateStore<AnchorFile>)
      ensures this.config == config && this.store == store
      ensures View() == Anchors(map[], None, store.saved)
    {
      this.config, this.store := config, store;
      anchorsToday, currentDay := map[], None;
    }

    function View(): Anchors
      reads this, store
    {
      Anchors(anchorsToday, currentDay, store.saved)
    }

    method RollDayIfNeeded(now: Stamp)
      modifies this, store
      ensures View() == Rolled(old(View()), now.day)
    {
      if currentDay == Some(now.day) {
        return;
      }
      currentDay := Some(now.day);
      anchorsToday := OnDisk(store.saved, now.day);
      if store.saved.Keys - {now.day} != {} {
        store.Save(map[now.day := anchorsToday]);
      }
    }

    method ShouldCaptureAnchor(symbol: Symbol, now: Stamp) returns (should: bool)
      modifies this, store
      ensures View() == Rolled(old(View()), now.day)
      ensures should == ShouldCapture(config, old(View()), symbol, now)
    {
      RollDayIfNeeded(now);
      should := MayCapture(config, now) && symbol !in anchorsToday;
    }

    method CaptureAnchor(symbol: Symbol, price: int, sourceBarTime: Stamp, now: Stamp) returns (record: AnchorRecord)
      modifies this, store
      ensures record == AnchorRecord(symbol, price, now, sourceBarTime)
      ensures View() == Captured(old(View()), record)
    {
      RollDayIfNeeded(now);
      record := AnchorRecord(symbol, price, now, sourceBarTime);
      anchorsToday := anchorsToday[symbol := record];
      store.Save(map[now.day := anchorsToday]);
    }

    method GetAnchor(symbol: Symbol, now: Stamp) returns (record: Option<AnchorRecord>)
      modifies this, store
      ensures View() == Rolled(old(View()), now.day)
      ensures record == if symbol in View().today then Some(View().today[symbol]) else None
    {
      RollDayIfNeeded(now);
      record := if symbol in anchorsToday then Some(anchorsToday[symbol]) else None;
    }
  }

  // ---- any run of gated ticks and restarts ----

  datatype AnchorEvent = Poll(symbol: Symbol, price: int, source: Stamp, now: Stamp) | Restart

  // The engine after a run, every record it captured, and the day of the last tick.
  datatype AnchorRun = AnchorRun(anchors: Anchors, log: seq<AnchorRecord>, lastDay: Option<int>)

  function AfterEvent(c: AnchorConfig, r: AnchorRun, e: AnchorEvent): AnchorRun {
    match e
    case Restart => r.(anchors := Anchors(map[], None, r.anchors.disk))
    case Poll(symbol, price, source, now) =>
      AnchorRun(
        GatedTick(c, r.anchors, symbol, price, source, now),
        if ShouldCapture(c, r.anchors, symbol, now) then r.log + [AnchorRecord(symbol, price, now, source)] else r.log,
        Some(now.day))
  }

  function RunAnchors(c: AnchorConfig, disk: AnchorFile, events: seq<AnchorEvent>): AnchorRun {
    if events == [] then AnchorRun(Anchors(map[], None, disk), [], None)
    else AfterEvent(c, RunAnchors(c, disk, events[..|events| - 1]), events[|events| - 1])
  }

  ghost predicate DaysNonDecreasing(events: seq<AnchorEvent>) {
    forall i, j :: 0 <= i < j < |events| && events[i].Poll? && events[j].Poll? ==>
      events[i].now.day <= events[j].now.day
  }

  // Inside the trading hours, and no more than the window after the anchor minute begins.
  predicate InWindow(c: AnchorConfig, now: Stamp) {
    && c.tradingOpen <= now.sec && now.sec <= c.tradingClose
    && 0 <= now.sec - (c.anchorTime - c.anchorTime % 60) <= c.windowSeconds
  }

  ghost predicate AnchorInv(c: AnchorConfig, r: AnchorRun) {
    && (forall i :: 0 <= i < |r.log| ==> InWindow(c, r.log[i].capturedAt))
    && (forall i, j :: 0 <= i < j < |r.log| && r.log[i].symbol == r.log[j].symbol ==>
          r.log[i].capturedAt.day != r.log[j].capturedAt.day)
    && (r.lastDay.None? ==> r.log == [] && r.anchors.day.None?)
    && (r.lastDay.Some? ==>
          var d := r.lastDay.value;
          && r.anchors.disk.Keys <= {d}
          && (r.anchors.day.Some? ==> r.anchors.day == Some(d) && r.anchors.today == OnDisk(r.anchors.disk, d))
          && (forall i :: 0 <= i < |r.log| ==> r.log[i].capturedAt.day <= d)
          && (forall i :: 0 <= i < |r.log| && r.log[i].capturedAt.day == d ==>
                var saved := OnDisk(r.anchors.disk, d);
                r.log[i].symbol in saved && saved[r.log[i].symbol] == r.log[i]))
  }

  lemma PollKeepsInv(c: AnchorConfig, r: AnchorRun, e: AnchorEvent)
    requires AnchorInv(c, r) && e.Poll? && (r.lastDay.Some? ==> r.lastDay.value <= e.now.day)
    ensures AnchorInv(c, AfterEvent(c, r, e))
  {
    var rolled := Rolled(r.anchors, e.now.day);
    assert rolled.today == OnDisk(rolled.disk, e.now.day);
    assert r.lastDay == Some(e.now.day) ==> OnDisk(rolled.disk, e.now.day) == OnDisk(r.anchors.disk, e.now.day);
    if ShouldCapture(c, r.anchors, e.symbol, e.now) {
      forall i | 0 <= i < |r.log| && r.log[i].capturedAt.day == e.now.day
        ensures r.log[i].symbol != e.symbol
      {
        assert r.log[i].symbol in rolled.today;
      }
    }
  }

  lemma {:induction false} AnchorInvHolds(c: AnchorConfig, disk: AnchorFile, events: seq<AnchorEvent>)
    requires DaysNonDecreasing(events)
    ensures AnchorInv(c, RunAnchors(c, disk, events))
    ensures RunAnchors(c, disk, events).lastDay.Some? ==>
      exists i :: 0 <= i < |events| && events[i].Poll? && RunAnchors(c, disk, events).lastDay == Some(events[i].now.day)
  {
    if events != [] {
      var n := |events| - 1;
      AnchorInvHolds(c, disk, events[..n]);
      var r := RunAnchors(c, disk, events[..n]);
      if events[n].Poll? {
        PollKeepsInv(c, r, events[n]);
      }
    }
  }

  // Over any ticks and restarts: each symbol is captured at most once a day and only inside
  // the window, the file holds the last tick's day alone, and whatever was captured that day
  // is what the engine answers from then on, restarted or not.
  lemma OncePerDay(c: AnchorConfig, disk: AnchorFile, events: seq<AnchorEvent>)
    requires DaysNonDecreasing(events)
    ensures var r := RunAnchors(c, disk, events);
      && (forall i :: 0 <= i < |r.log| ==> InWindow(c, r.log[i].capturedAt))
      && (forall i, j :: 0 <= i < j < |r.log| && r.log[i].symbol == r.log[j].symbol ==>
            r.log[i].capturedAt.day != r.log[j].capturedAt.day)
      && (r.lastDay.Some? ==> r.anchors.disk.Keys <= {r.lastDay.value})
      && (forall i :: 0 <= i < |r.log| && r.lastDay == Some(r.log[i].capturedAt.day) ==>
            var answered := Rolled(r.anchors, r.lastDay.value).today;
            r.log[i].symbol in answered && answered[r.log[i].symbol] == r.log[i])
  {
    AnchorInvHolds(c, disk, events);
  }

  ghost predicate PollsAnswered(c: AnchorConfig, r: AnchorRun, events: seq<AnchorEvent>) {
    forall e :: e in events && e.Poll? ==>
      && r.lastDay.Some? && e.now.day <= r.lastDay.value
      && (InWindow(c, e.now) && e.now.day == r.lastDay.value ==> e.symbol in OnDisk(r.anchors.disk, e.now.day))
  }

  // One poll: what was on disk for its day stays there, and an open gate adds its symbol.
  lemma PollAnchors(c: AnchorConfig, r: AnchorRun, e: AnchorEvent)
    requires AnchorInv(c, r) && e.Poll? && (r.lastDay.Some? ==> r.lastDay.value <= e.now.day)
    ensures var n := AfterEvent(c, r, e);
      && n.lastDay == Some(e.now.day)
      && (InWindow(c, e.now) ==> e.symbol in OnDisk(n.anchors.disk, e.now.day))
      && (r.lastDay == Some(e.now.day) ==>
            OnDisk(r.anchors.disk, e.now.day).Keys <= OnDisk(n.anchors.disk, e.now.day).Keys)
  {
    var rolled := Rolled(r.anchors, e.now.day);
    assert rolled.today == OnDisk(rolled.disk, e.now.day);
    assert r.lastDay == Some(e.now.day) ==> OnDisk(rolled.disk, e.now.day) == OnDisk(r.anchors.disk, e.now.day);
  }

  lemma AnsweredGrows(c: AnchorConfig, r: AnchorRun, n: AnchorRun, events: seq<AnchorEvent>, last: AnchorEvent)
    requires PollsAnswered(c, r, events)
    requires last.Poll? && n.lastDay == Some(last.now.day) && (r.lastDay.Some? ==> r.lastDay.value <= last.now.day)
    requires InWindow(c, last.now) ==> last.symbol in OnDisk(n.anchors.disk, last.now.day)
    requires r.lastDay == n.lastDay ==>
      OnDisk(r.anchors.disk, last.now.day).Keys <= OnDisk(n.anchors.disk, last.now.day).Keys
    ensures PollsAnswered(c, n, events + [last])
  {
  }

  // And the gate does open: a symbol polled inside the window has its anchor on disk, and is
  // answered with it, until the day changes.
  lemma {:induction false} PolledInWindowIsAnchored(c: AnchorConfig, disk: AnchorFile, events: seq<AnchorEvent>)
    requires DaysNonDecreasing(events)
    ensures PollsAnswered(c, RunAnchors(c, disk, events), events)
  {
    if events != [] {
      var n := |events| - 1;
      var r, last := RunAnchors(c, disk, events[..n]), events[n];
      PolledInWindowIsAnchored(c, disk, events[..n]);
      AnchorInvHolds(c, disk, events[..n]);
      assert events == events[..n] + [last];
      if last.Poll? {
        PollAnchors(c, r, last);
        AnsweredGrows(c, r, AfterEvent(c, r, last), events[..n], last);
      }
    }
  }

  // Poll `k` is the first of its symbol and day inside the window.
  ghost predicate FirstInWindow(c: AnchorConfig, events: seq<AnchorEvent>, k: int) {
    && 0 <= k < |events| && events[k].Poll? && InWindow(c, events[k].now)
    && forall j :: 0 <= j < k && SamePoll(events[j], events[k]) ==> !InWindow(c, events[j].now)
  }

  predicate SamePoll(a: AnchorEvent, b: AnchorEvent) {
    a.Poll? && b.Poll? && a.symbol == b.symbol && a.now.day == b.now.day
  }

  // The record repeats the arguments of such a poll.
  ghost predicate FromFirstPoll(c: AnchorConfig, events: seq<AnchorEvent>, r: AnchorRecord) {
    exists k :: FirstInWindow(c, events, k) && events[k] == Poll(r.symbol, r.price, r.sourceBarTime, r.capturedAt)
  }

  // A poll that captures has no poll like it before it inside the window.
  lemma CaptureIsFirst(c: AnchorConfig, disk: AnchorFile, events: seq<AnchorEvent>, last: AnchorEvent)
    requires DaysNonDecreasing(events + [last]) && last.Poll?
    requires ShouldCapture(c, RunAnchors(c, disk, events).anchors, last.symbol, last.now)
    ensures FirstInWindow(c, events + [last], |events|)
  {
    var r, all := RunAnchors(c, disk, events), events + [last];
    assert forall i :: 0 <= i < |events| ==> all[i] == events[i];
    assert DaysNonDecreasing(events);
    AnchorInvHolds(c, disk, events);
    PolledInWindowIsAnchored(c, disk, events);
    forall j | 0 <= j < |events| && SamePoll(all[j], last) ensures !InWindow(c, all[j].now) {
      assert events[j] in events && r.lastDay.Some?;
      var i :| 0 <= i < |events| && events[i].Poll? && r.lastDay == Some(events[i].now.day);
      assert all[i].now.day <= all[|events|].now.day;
      assert Rolled(r.anchors, last.now.day).today == OnDisk(r.anchors.disk, last.now.day);
    }
  }

  lemma FirstPollKept(c: AnchorConfig, events: seq<AnchorEvent>, last: AnchorEvent, r: AnchorRecord)
    requires FromFirstPoll(c, events, r)
    ensures FromFirstPoll(c, events + [last], r)
  {
    var all := events + [last];
    var k :| FirstInWindow(c, events, k) && events[k] == Poll(r.symbol, r.price, r.sourceBarTime, r.capturedAt);
    assert forall i :: 0 <= i < |events| ==> all[i] == events[i];
    assert FirstInWindow(c, all, k) && all[k] == events[k];
  }

  // Every record is of the first poll of its symbol and day inside the window.
  lemma {:induction false} RecordsAreFirstPolls(c: AnchorConfig, disk: AnchorFile, events: seq<AnchorEvent>)
    requires DaysNonDecreasing(events)
    ensures forall i :: 0 <= i < |RunAnchors(c, disk, events).log| ==>
      FromFirstPoll(c, events, RunAnchors(c, disk, events).log[i])
  {
    if events != [] {
      var front, last := events[..|events| - 1], events[|events| - 1];
      var before, log := RunAnchors(c, disk, front), RunAnchors(c, disk, events).log;
      assert events == front + [last];
      RecordsAreFirstPolls(c, disk, front);
      forall i | 0 <= i < |log| ensures FromFirstPoll(c, events, log[i]) {
        if i < |before.log| {
          FirstPollKept(c, front, last, before.log[i]);
        } else {
          CaptureIsFirst(c, disk, front, last);
          assert events[|front|] == Poll(log[i].symbol, log[i].price, log[i].sourceBarTime, log[i].capturedAt);
        }
      }
    }
  }
}

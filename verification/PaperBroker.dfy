// brokers/paper/paper_broker.py: resting stops and positions held in memory. Orders are
// keyed "paper-1", "paper-2", ... and never removed, so the book is a sequence and the
// order with id `k` is its element `k`.
module PaperBroker {
  import opened Wrappers
  import opened StrategyRunner

  datatype OrderStatus = Open | Filled | Cancelled

  datatype Order = Order(symbol: Symbol, securityId: string, side: Side, quantity: int, trigger: int,
                         status: OrderStatus)

  datatype PaperPosition = PaperPosition(
    symbol: Symbol, securityId: string, side: Side, entry: int, quantity: int, sl: Option<int>, tp: Option<int>)

  datatype Fill = Fill(orderId: nat, side: Side, price: int)

  datatype Book = Book(orders: seq<Order>, positions: map<Symbol, PaperPosition>)

  const EMPTY_BOOK := Book([], map[])

  function PlacedStop(b: Book, symbol: Symbol, securityId: string, side: Side, quantity: int, trigger: int): Book {
    b.(orders := b.orders + [Order(symbol, securityId, side, quantity, trigger, Open)])
  }

  function CancelledOrder(b: Book, id: nat): Book {
    if id < |b.orders| && b.orders[id].status == Open
    then b.(orders := b.orders[id := b.orders[id].(status := Cancelled)])
    else b
  }

  // A resting stop of this security that the price has reached.
  predicate Triggered(o: Order, securityId: string, ltp: int) {
    o.status == Open && o.securityId == securityId && if o.side.Long? then ltp >= o.trigger else ltp <= o.trigger
  }

  function FilledOrder(b: Book, id: nat): Book
    requires id < |b.orders|
  {
    var o := b.orders[id];
    Book(b.orders[id := o.(status := Filled)],
         if o.symbol in b.positions then b.positions
         else b.positions[o.symbol := PaperPosition(o.symbol, o.securityId, o.side, o.trigger, o.quantity, None, None)])
  }

  // Walk the book from order `i` on, filling every stop the price has reached.
  function TickFrom(b: Book, i: nat, securityId: string, ltp: int): (Book, seq<Fill>)
    requires i <= |b.orders|
    ensures |TickFrom(b, i, securityId, ltp).0.orders| == |b.orders|
    decreases |b.orders| - i
  {
    if i == |b.orders| then (b, [])
    else if Triggered(b.orders[i], securityId, ltp) then
      var rest := TickFrom(FilledOrder(b, i), i + 1, securityId, ltp);
      (rest.0, [Fill(i, b.orders[i].side, b.orders[i].trigger)] + rest.1)
    else TickFrom(b, i + 1, securityId, ltp)
  }

  function ModifiedSl(b: Book, symbol: Symbol, sl: int): Book {
    if symbol in b.positions then b.(positions := b.positions[symbol := b.positions[symbol].(sl := Some(sl))]) else b
  }

  function ModifiedTp(b: Book, symbol: Symbol, tp: int): Book {
    if symbol in b.positions then b.(positions := b.positions[symbol := b.positions[symbol].(tp := Some(tp))]) else b
  }

  function ForceClosed(b: Book, symbol: Symbol): Book {
    b.(positions := b.positions - {symbol})
  }

  function ClosePoints(b: Book, symbol: Symbol, price: int): int {
    if symbol !in b.positions then 0
    else if b.positions[symbol].side.Long? then price - b.positions[symbol].entry
    else b.positions[symbol].entry - price
  }

  lemma {:induction false} NothingTriggered(b: Book, i: nat, securityId: string, ltp: int)
    requires i <= |b.orders| && forall j :: i <= j < |b.orders| ==> !Triggered(b.orders[j], securityId, ltp)
    ensures TickFrom(b, i, securityId, ltp) == (b, [])
    decreases |b.orders| - i
  {
    if i < |b.orders| {
      NothingTriggered(b, i + 1, securityId, ltp);
    }
  }

  lemma {:induction false} OneTriggered(b: Book, i: nat, k: nat, securityId: string, ltp: int)
    requires i <= k < |b.orders|
    requires forall j :: i <= j < |b.orders| ==> (Triggered(b.orders[j], securityId, ltp) <==> j == k)
    ensures TickFrom(b, i, securityId, ltp) == (FilledOrder(b, k), [Fill(k, b.orders[k].side, b.orders[k].trigger)])
    decreases k - i
  {
    if i < k {
      OneTriggered(b, i + 1, k, securityId, ltp);
    } else {
      NothingTriggered(FilledOrder(b, k), k + 1, securityId, ltp);
      var fill := Fill(k, b.orders[k].side, b.orders[k].trigger);
      assert [fill] + [] == [fill];
    }
  }

  // The fill of one order, spelled out: its status alone changes in the book, and it opens a
  // position at its trigger, without stop or target, only where none is held.
  lemma FillExplained(b: Book, id: nat)
    requires id < |b.orders|
    ensures var n, o := FilledOrder(b, id), b.orders[id];
      && |n.orders| == |b.orders| && n.orders[id] == o.(status := Filled)
      && (forall i :: 0 <= i < |b.orders| && i != id ==> n.orders[i] == b.orders[i])
      && (forall s :: s in b.positions ==> s in n.positions && n.positions[s] == b.positions[s])
      && (o.symbol !in b.positions ==>
            && o.symbol in n.positions
            && n.positions[o.symbol]
               == PaperPosition(o.symbol, o.securityId, o.side, o.trigger, o.quantity, None, None))
      && n.positions.Keys == b.positions.Keys + {o.symbol}
  {
  }

  // Orders are only ever added, and one that is no longer open is not touched again.
  ghost predicate Final(a: seq<Order>, b: seq<Order>) {
    && |a| <= |b|
    && (forall i :: 0 <= i < |a| ==> b[i] == a[i].(status := b[i].status))
    && (forall i :: 0 <= i < |a| && a[i].status != Open ==> b[i] == a[i])
  }

  lemma FinalStep(a: seq<Order>, b: seq<Order>, c: seq<Order>)
    requires Final(a, b) && Final(b, c)
    ensures Final(a, c)
  {
  }

  lemma {:induction false} TickIsFinal(b: Book, i: nat, securityId: string, ltp: int)
    requires i <= |b.orders|
    ensures Final(b.orders, TickFrom(b, i, securityId, ltp).0.orders)
    decreases |b.orders| - i
  {
    if i < |b.orders| {
      if Triggered(b.orders[i], securityId, ltp) {
        TickIsFinal(FilledOrder(b, i), i + 1, securityId, ltp);
        FinalStep(b.orders, FilledOrder(b, i).orders, TickFrom(b, i, securityId, ltp).0.orders);
      } else {
        TickIsFinal(b, i + 1, securityId, ltp);
      }
    }
  }

  class Broker {
    var orders: seq<Order>
    var positions: map<Symbol, PaperPosition>

    constructor ()
      ensures View() == EMPTY_BOOK
    {
      orders, positions := [], map[];
    }

    function View(): Book
      reads this
    {
      Book(orders, positions)
    }

    method PlaceStopOrder(symbol: Symbol, securityId: string, side: Side, quantity: int, trigger: int) returns (id: nat)
      modifies this
      ensures id == |old(orders)| && View() == PlacedStop(old(View()), symbol, securityId, side, quantity, trigger)
    {
      id := |orders|;
      orders := orders + [Order(symbol, securityId, side, quantity, trigger, Open)];
    }

    method CancelOrder(id: nat) returns (ok: bool)
      modifies this
      ensures View() == CancelledOrder(old(View()), id)
      ensures ok == (id < |old(orders)| && old(orders)[id].status == Open)
    {
      if id >= |orders| || orders[id].status != Open {
        return false;
      }
      orders := orders[id := orders[id].(status := Cancelled)];
      ok := true;
    }

    method ProcessTick(securityId: string, ltp: int) returns (fills: seq<Fill>)
      modifies this
      ensures (View(), fills) == TickFrom(old(View()), 0, securityId, ltp)
    {
      fills := [];
      for i := 0 to |orders|
        invariant |orders| == |old(orders)|
        invariant var all, rest := TickFrom(old(View()), 0, securityId, ltp), TickFrom(View(), i, securityId, ltp);
          all.0 == rest.0 && all.1 == fills + rest.1
      {
        var order := orders[i];
        ghost var before := fills;
        ghost var later := TickFrom(FilledOrder(View(), i), i + 1, securityId, ltp).1;
        if Triggered(order, securityId, ltp) {
          orders := orders[i := order.(status := Filled)];
          if order.symbol !in positions {
            positions := positions[order.symbol :=
              PaperPosition(order.symbol, order.securityId, order.side, order.trigger, order.quantity, None, None)];
          }
          fills := fills + [Fill(i, order.side, order.trigger)];
          assert before + ([Fill(i, order.side, order.trigger)] + later) == fills + later;
        }
      }
      assert fills + [] == fills;
    }

    method ModifySl(symbol: Symbol, sl: int) returns (ok: bool)
      modifies this
      ensures ok == (symbol in old(positions)) && View() == ModifiedSl(old(View()), symbol, sl)
    {
      if symbol !in positions {
        return false;
      }
      positions := positions[symbol := positions[symbol].(sl := Some(sl))];
      ok := true;
    }

    method ModifyTp(symbol: Symbol, tp: int) returns (ok: bool)
      modifies this
      ensures ok == (symbol in old(positions)) && View() == ModifiedTp(old(View()), symbol, tp)
    {
      if symbol !in positions {
        return false;
      }
      positions := positions[symbol := positions[symbol].(tp := Some(tp))];
      ok := true;
    }

    method ForceClose(symbol: Symbol, price: int) returns (points: Option<int>)
      modifies this
      ensures View() == ForceClosed(old(View()), symbol)
      ensures points.Some? == (symbol in old(positions))
      ensures points.Some? ==> points.value == ClosePoints(old(View()), symbol, price)
    {
      if symbol !in positions {
        return None;
      }
      var position := positions[symbol];
      positions := positions - {symbol};
      points := Some(if position.side.Long? then price - position.entry else position.entry - price);
    }
  }
}

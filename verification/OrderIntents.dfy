// brokers/dhan/order_intents.py and the two methods of brokers/dhan/dhan_broker.py that use
// it: an intent is written to disk before its order is posted, and its order id after.
module OrderIntents {
  import opened Wrappers
  import StateStore

  type IntentId = string
  type OrderId = string

  datatype Status = Pending | Submitted | Open | Filled | PartiallyFilled | Cancelled | Rejected | Unknown

  datatype Intent = Intent(status: Status, payload: string, orderId: Option<OrderId>)

  type IntentFile = map<IntentId, Intent>

  // Python's truth of a stored order id: neither missing nor empty.
  predicate HasOrder(file: IntentFile, id: IntentId) {
    id in file && file[id].orderId.Some? && file[id].orderId.value != ""
  }

  predicate Live(intent: Intent) {
    intent.status == Pending || intent.status == Submitted
  }

  // Keeps an intent that is already there, whatever its status.
  function PendingRecorded(file: IntentFile, id: IntentId, payload: string): IntentFile {
    if id in file then file else file[id := Intent(Pending, payload, None)]
  }

  function SubmittedRecorded(file: IntentFile, id: IntentId, orderId: OrderId): IntentFile
    requires id in file
  {
    file[id := file[id].(status := Submitted, orderId := Some(orderId))]
  }

  function StatusRecorded(file: IntentFile, id: IntentId, status: Status): IntentFile
    requires id in file
  {
    file[id := file[id].(status := status)]
  }

  // What the broker answers about each intent's order: a status, or an HTTP error.
  type Answers = IntentId -> Option<Status>

  // Reconciling refreshes the live intents whose order id is stored and whose query
  // succeeds, and nothing else.
  function Reconciled(file: IntentFile, answers: Answers): IntentFile {
    map id | id in file ::
      if Live(file[id]) && file[id].orderId.Some? && answers(id).Some? then file[id].(status := answers(id).value)
      else file[id]
  }

  class OrderIntentStore {
    const store: StateStore.StateStore<IntentFile>

    constructor (store: StateStore.StateStore<IntentFile>)
      ensures this.store == store
    {
      this.store := store;
    }

    method RecordPending(id: IntentId, payload: string) returns (intent: Intent)
      modifies store
      ensures store.saved == PendingRecorded(old(store.saved), id, payload) && intent == store.saved[id]
    {
      if id in store.saved {
        return store.saved[id];
      }
      intent := Intent(Pending, payload, None);
      store.Save(store.saved[id := intent]);
    }

    // An id the store has never seen gives None and leaves the file alone, for the KeyError
    // raised before anything is saved.
    method Update(id: IntentId, status: Status, orderId: Option<OrderId>) returns (updated: Option<Intent>)
      modifies store
      ensures id !in old(store.saved) ==> updated.None? && store.saved == old(store.saved)
      ensures id in old(store.saved) ==>
        var was := old(store.saved)[id];
        && updated == Some(was.(status := status, orderId := if orderId.Some? then orderId else was.orderId))
        && store.saved == old(store.saved)[id := updated.value]
    {
      if id !in store.saved {
        return None;
      }
      var intent := store.saved[id].(status := status);
      if orderId.Some? {
        intent := intent.(orderId := orderId);
      }
      store.Save(store.saved[id := intent]);
      updated := Some(intent);
    }

    // The live intents, each once.
    method AllPending() returns (ids: seq<IntentId>)
      ensures forall id :: id in ids <==>
        id in store.saved && (store.saved[id].status == Pending || store.saved[id].status == Submitted)
      ensures forall i, j :: 0 <= i < j < |ids| ==> ids[i] != ids[j]
    {
      ids := [];
      var rest := store.saved.Keys;
      while rest != {}
        invariant rest <= store.saved.Keys
        invariant forall id :: id in ids <==> id in store.saved && id !in rest && Live(store.saved[id])
        invariant forall i, j :: 0 <= i < j < |ids| ==> ids[i] != ids[j]
        decreases rest
      {
        var id :| id in rest;
        rest := rest - {id};
        if Live(store.saved[id]) {
          ids := ids + [id];
        }
      }
    }
  }

  // An order as the broker reports it.
  datatype BrokerOrder = BrokerOrder(orderId: OrderId, status: Status)

  // The broker's reply to one POST.
  datatype PostReply = Accepted(order: BrokerOrder) | HttpError

  // The broker's reply to a query for each order id: the order, or an HTTP error.
  type Lookups = OrderId -> Option<BrokerOrder>

  // What a call that is not interrupted leaves on disk and at the exchange.
  function CallOutcome(file: IntentFile, accepted: multiset<IntentId>, id: IntentId, payload: string, reply: PostReply)
    : (IntentFile, multiset<IntentId>)
  {
    if HasOrder(file, id) then (file, accepted)
    else if reply.HttpError? then (PendingRecorded(file, id, payload), accepted)
    else (SubmittedRecorded(PendingRecorded(file, id, payload), id, reply.order.orderId), accepted + multiset{id})
  }

  class DhanBroker {
    const intentStore: OrderIntentStore
    // Each intent as often as the exchange has accepted an order for it.
    var accepted: multiset<IntentId>

    constructor (intentStore: OrderIntentStore)
      ensures this.intentStore == intentStore && accepted == multiset{}
    {
      this.intentStore, accepted := intentStore, multiset{};
    }

    // `placed` is the order the caller gets, or None when a request raised. An order already
    // stored is looked up afresh and returned as the broker reports it.
    method PlaceWithIntent(id: IntentId, payload: string, reply: PostReply, lookup: Lookups)
        returns (placed: Option<BrokerOrder>)
      modifies this, intentStore.store
      ensures (intentStore.store.saved, accepted)
              == CallOutcome(old(intentStore.store.saved), old(accepted), id, payload, reply)
      ensures var was := old(intentStore.store.saved);
        placed == if HasOrder(was, id) then lookup(was[id].orderId.value)
                  else if reply.HttpError? then None else Some(reply.order)
    {
      if HasOrder(intentStore.store.saved, id) {
        return lookup(intentStore.store.saved[id].orderId.value);
      }
      var _ := intentStore.RecordPending(id, payload);
      if reply.HttpError? {
        return None;
      }
      accepted := accepted + multiset{id};
      var _ := intentStore.Update(id, Submitted, Some(reply.order.orderId));
      placed := Some(reply.order);
    }

    // Returns the intents a person must decide about.
    method ReconcilePendingIntents(answers: Answers) returns (undecided: set<IntentId>)
      modifies intentStore.store
      ensures intentStore.store.saved == Reconciled(old(intentStore.store.saved), answers)
      ensures accepted == old(accepted)
      ensures forall id :: id in undecided <==>
        var before := old(intentStore.store.saved);
        id in before && Live(before[id]) && (before[id].orderId.None? || answers(id).None?)
    {
      undecided := {};
      ghost var before := intentStore.store.saved;
      var ids := intentStore.AllPending();
      for i := 0 to |ids|
        invariant intentStore.store.saved.Keys == before.Keys
        invariant forall id :: id in before ==>
          intentStore.store.saved[id] == if id in ids[..i] then Reconciled(before, answers)[id] else before[id]
        invariant forall id :: id in undecided <==> id in ids[..i] && (before[id].orderId.None? || answers(id).None?)
      {
        var id := ids[i];
        assert id !in ids[..i];
        var intent := intentStore.store.saved[id];
        if intent.orderId.None? || answers(id).None? {
          undecided := undecided + {id};
        } else {
          var _ := intentStore.Update(id, answers(id).value, None);
        }
      }
    }
  }
}

// The intent protocol one disk write or broker call at a time, with a crash possible
// between any two. Memory (`pc`) is lost in a crash; the file and the broker are not.
module IntentProtocol {
  import opened Wrappers
  import opened OrderIntents

  datatype Pc =
    | Idle
    | Checked(id: IntentId, payload: string)    // no order id on disk: about to record the intent
    | Recorded(id: IntentId)                    // intent on disk: about to post
    | Posted(id: IntentId, orderId: OrderId)    // accepted: about to store the order id
    | Reconciling(todo: seq<IntentId>)

  // How often, for each intent: `accepted`, the broker took an order for it; `lost`, a crash
  // fell between the broker's reply and the write of the order id; `unnamed`, the id written
  // was empty.
  datatype World = World(
    file: IntentFile, accepted: multiset<IntentId>, lost: multiset<IntentId>, unnamed: multiset<IntentId>, pc: Pc)

  // `Crash` is the loss of `pc`: a process death, and also an accepted post whose reply never
  // arrives, which leaves the same file, the same orders and an idle process.
  datatype Action =
    | Call(callId: IntentId, callPayload: string)
    | WriteIntent
    | PostAccepted(newOrderId: OrderId)
    | PostFailed
    | WriteOrderId
    | StartReconcile(pending: seq<IntentId>)
    | ReconcileNext(answer: Option<Status>)
    | Crash

  // The list a reconcile starts from: every live intent, each once.
  ghost predicate ListsPending(file: IntentFile, ids: seq<IntentId>) {
    && (forall id :: id in ids <==> id in file && Live(file[id]))
    && (forall i, j :: 0 <= i < j < |ids| ==> ids[i] != ids[j])
  }

  // What one answer of a reconcile leaves on disk.
  function Answered(file: IntentFile, id: IntentId, answer: Option<Status>): IntentFile {
    if id in file && file[id].orderId.Some? && answer.Some? then StatusRecorded(file, id, answer.value) else file
  }

  // An action the process is not about to take changes nothing.
  ghost function Step(w: World, a: Action): World {
    match a
    case Call(id, payload) =>
      if !w.pc.Idle? || HasOrder(w.file, id) then w else w.(pc := Checked(id, payload))
    case WriteIntent =>
      if !w.pc.Checked? then w
      else w.(file := PendingRecorded(w.file, w.pc.id, w.pc.payload), pc := Recorded(w.pc.id))
    case PostAccepted(orderId) =>
      if !w.pc.Recorded? then w
      else w.(accepted := w.accepted + multiset{w.pc.id}, pc := Posted(w.pc.id, orderId))
    case PostFailed =>
      if !w.pc.Recorded? then w else w.(pc := Idle)
    case WriteOrderId =>
      if !w.pc.Posted? || w.pc.id !in w.file then w
      else
        w.(file := SubmittedRecorded(w.file, w.pc.id, w.pc.orderId), pc := Idle,
           unnamed := if w.pc.orderId == "" then w.unnamed + multiset{w.pc.id} else w.unnamed)
    case StartReconcile(pending) =>
      if !w.pc.Idle? || !ListsPending(w.file, pending) then w else w.(pc := Reconciling(pending))
    case ReconcileNext(answer) =>
      if !w.pc.Reconciling? then w
      else if w.pc.todo == [] then w.(pc := Idle)
      else w.(file := Answered(w.file, w.pc.todo[0], answer), pc := Reconciling(w.pc.todo[1..]))
    case Crash =>
      w.(pc := Idle, lost := if w.pc.Posted? then w.lost + multiset{w.pc.id} else w.lost)
  }

  const START := World(map[], multiset{}, multiset{}, multiset{}, Idle)

  ghost function RunFrom(w: World, actions: seq<Action>): World { Fold(Step, w, actions) }

  ghost function Run(actions: seq<Action>): World { RunFrom(START, actions) }

  lemma RunNext(w: World, actions: seq<Action>, a: Action)
    ensures RunFrom(w, actions + [a]) == Step(RunFrom(w, actions), a)
  {
    FoldNext(Step, w, actions, a);
  }

  lemma RunConcat(w: World, a: seq<Action>, b: seq<Action>)
    ensures RunFrom(w, a + b) == RunFrom(RunFrom(w, a), b)
  {
    FoldConcat(Step, w, a, b);
  }

  function Stored(w: World, id: IntentId): nat { if HasOrder(w.file, id) then 1 else 0 }

  function InFlight(w: World, id: IntentId): nat { if w.pc.Posted? && w.pc.id == id then 1 else 0 }

  ghost predicate Balanced(w: World, id: IntentId) {
    w.accepted[id] == Stored(w, id) + w.lost[id] + w.unnamed[id] + InFlight(w, id)
  }

  ghost predicate PcSound(w: World) {
    match w.pc
    case Idle => true
    case Checked(id, _) => !HasOrder(w.file, id)
    case Recorded(id) => id in w.file && !HasOrder(w.file, id)
    case Posted(id, _) => id in w.file && !HasOrder(w.file, id)
    case Reconciling(todo) =>
      && (forall id :: id in todo ==> id in w.file && Live(w.file[id]))
      && (forall i, j :: 0 <= i < j < |todo| ==> todo[i] != todo[j])
  }

  // One intent's part of the invariant.
  ghost predicate IntentSound(w: World, id: IntentId) {
    Balanced(w, id) && (w.accepted[id] > 0 ==> id in w.file)
  }

  lemma ReconcileNextKeepsPc(w: World, answer: Option<Status>)
    requires PcSound(w) && w.pc.Reconciling? && w.pc.todo != []
    ensures PcSound(Step(w, ReconcileNext(answer)))
  {
    var todo, rest := w.pc.todo, w.pc.todo[1..];
    var n := Step(w, ReconcileNext(answer));
    forall id | id in rest ensures id in n.file && Live(n.file[id]) {
      assert id in todo && id != todo[0];
    }
  }

  lemma StepKeepsPc(w: World, a: Action)
    requires PcSound(w)
    ensures PcSound(Step(w, a))
  {
    if a.ReconcileNext? && w.pc.Reconciling? && w.pc.todo != [] {
      ReconcileNextKeepsPc(w, a.answer);
    }
  }

  // Answering a reconcile stores no order id and takes none away.
  lemma AnsweredStored(file: IntentFile, id: IntentId, answer: Option<Status>, x: IntentId)
    ensures HasOrder(Answered(file, id, answer), x) <==> HasOrder(file, x)
    ensures x in Answered(file, id, answer) <==> x in file
  {
  }

  lemma StepKeepsIntent(w: World, a: Action, id: IntentId)
    requires PcSound(w) && IntentSound(w, id)
    ensures IntentSound(Step(w, a), id)
  {
    if a.ReconcileNext? && w.pc.Reconciling? && w.pc.todo != [] {
      AnsweredStored(w.file, w.pc.todo[0], a.answer, id);
    }
  }

  lemma {:induction false} RunKeepsPc(w: World, actions: seq<Action>)
    requires PcSound(w)
    ensures PcSound(RunFrom(w, actions))
  {
    if actions != [] {
      var n := |actions| - 1;
      RunKeepsPc(w, actions[..n]);
      StepKeepsPc(RunFrom(w, actions[..n]), actions[n]);
    }
  }

  lemma {:induction false} RunKeepsIntent(w: World, actions: seq<Action>, id: IntentId)
    requires PcSound(w) && IntentSound(w, id)
    ensures IntentSound(RunFrom(w, actions), id)
  {
    if actions != [] {
      var n := |actions| - 1;
      RunKeepsIntent(w, actions[..n], id);
      RunKeepsPc(w, actions[..n]);
      StepKeepsIntent(RunFrom(w, actions[..n]), actions[n], id);
    }
  }

  // Over any actions, crashes and order ids: every order the broker holds has its intent on
  // disk, and an intent's orders are exactly one if its id is stored, one per crash that lost
  // an id, one per empty id written, and one if the reply has only just come.
  lemma OrdersAccountedFor(actions: seq<Action>, id: IntentId)
    ensures var w := Run(actions);
      && (id in w.accepted ==> id in w.file)
      && w.accepted[id] == Stored(w, id) + w.lost[id] + w.unnamed[id] + InFlight(w, id)
  {
    RunKeepsIntent(START, actions, id);
  }

  // An intent has at most one order exactly when no reply for it was lost or left without an
  // id, or one was and no order of its has been accepted before or since.
  lemma AtMostOneOrderIff(actions: seq<Action>, id: IntentId)
    ensures var w := Run(actions);
      var lapses := w.lost[id] + w.unnamed[id];
      w.accepted[id] <= 1 <==> lapses == 0 || (lapses == 1 && !HasOrder(w.file, id) && InFlight(w, id) == 0)
  {
    OrdersAccountedFor(actions, id);
    RunKeepsPc(START, actions);
  }

  // ---- what the file says of an intent ----

  // An intent without an order id is as some call recorded it, still PENDING; one with an order
  // id is SUBMITTED, or has the status some reconcile was answered.
  ghost predicate Explains(actions: seq<Action>, intent: Intent, id: IntentId) {
    && (exists i :: 0 <= i < |actions| && actions[i] == Call(id, intent.payload))
    && if intent.orderId.None? then intent.status == Pending
       else intent.status == Submitted || ReconcileNext(Some(intent.status)) in actions
  }

  // And what the process holds in memory came from a call.
  ghost predicate HeldExplained(actions: seq<Action>, pc: Pc) {
    pc.Checked? ==> exists i :: 0 <= i < |actions| && actions[i] == Call(pc.id, pc.payload)
  }

  lemma ExplainsNext(actions: seq<Action>, a: Action, intent: Intent, id: IntentId)
    requires Explains(actions, intent, id)
    ensures Explains(actions + [a], intent, id)
  {
    var i :| 0 <= i < |actions| && actions[i] == Call(id, intent.payload);
    assert (actions + [a])[i] == Call(id, intent.payload);
  }

  lemma HeldNext(actions: seq<Action>, w: World, a: Action)
    requires HeldExplained(actions, w.pc)
    ensures HeldExplained(actions + [a], Step(w, a).pc)
  {
    var all, n := actions + [a], Step(w, a).pc;
    if n.Checked? {
      if n == w.pc {
        var i :| 0 <= i < |actions| && actions[i] == Call(n.id, n.payload);
        assert all[i] == Call(n.id, n.payload);
      } else {
        assert all[|actions|] == Call(n.id, n.payload);
      }
    }
  }

  // One action explains what it writes.
  lemma WriteExplained(actions: seq<Action>, w: World, a: Action, id: IntentId)
    requires HeldExplained(actions, w.pc) && PcSound(w) && id in Step(w, a).file
    requires id in w.file ==> Explains(actions, w.file[id], id)
    ensures Explains(actions + [a], Step(w, a).file[id], id)
  {
    var all, n := actions + [a], Step(w, a);
    if id in w.file {
      ExplainsNext(actions, a, w.file[id], id);
      if n.file[id] != w.file[id] && a.ReconcileNext? {
        assert all[|actions|] == a;
        assert a == ReconcileNext(Some(n.file[id].status));
      }
    } else {
      var i :| 0 <= i < |actions| && actions[i] == Call(w.pc.id, w.pc.payload);
      assert all[i] == Call(id, n.file[id].payload);
    }
  }

  // Over any actions and crashes, for every intent on disk.
  lemma {:induction false} FileExplained(actions: seq<Action>)
    ensures HeldExplained(actions, Run(actions).pc)
    ensures forall id :: id in Run(actions).file ==> Explains(actions, Run(actions).file[id], id)
  {
    if actions != [] {
      var front, last := actions[..|actions| - 1], actions[|actions| - 1];
      var w := Run(front);
      FileExplained(front);
      RunKeepsPc(START, front);
      RunNext(START, front, last);
      assert actions == front + [last];
      HeldNext(front, w, last);
      forall id | id in Run(actions).file ensures Explains(actions, Run(actions).file[id], id) {
        WriteExplained(front, w, last, id);
      }
    }
  }

  // What a whole reconcile does to one intent: it takes the answered status if it was PENDING or
  // SUBMITTED with an order id and the query succeeded, and is otherwise left as it was.
  lemma ReconciledOne(file: IntentFile, answers: Answers, id: IntentId)
    requires id in file
    ensures var was, now := file[id], Reconciled(file, answers)[id];
      && now == was.(status := now.status)
      && now.status == if (was.status == Pending || was.status == Submitted) && was.orderId.Some? && answers(id).Some?
                       then answers(id).value else was.status
  {
  }

  // ---- once an order id is stored ----

  lemma AnsweredKeepsId(file: IntentFile, id: IntentId, answer: Option<Status>, x: IntentId)
    requires x in file
    ensures x in Answered(file, id, answer) && Answered(file, id, answer)[x].orderId == file[x].orderId
  {
  }

  lemma StoredStays(w: World, a: Action, id: IntentId)
    requires PcSound(w) && HasOrder(w.file, id)
    ensures var n := Step(w, a);
      && HasOrder(n.file, id) && n.file[id].orderId == w.file[id].orderId
      && n.accepted[id] == w.accepted[id]
  {
    if a.ReconcileNext? && w.pc.Reconciling? && w.pc.todo != [] {
      AnsweredKeepsId(w.file, w.pc.todo[0], a.answer, id);
    }
  }

  lemma {:induction false} StoredStaysFrom(w: World, more: seq<Action>, id: IntentId)
    requires PcSound(w) && HasOrder(w.file, id)
    ensures var n := RunFrom(w, more);
      && HasOrder(n.file, id) && n.file[id].orderId == w.file[id].orderId
      && n.accepted[id] == w.accepted[id]
  {
    if more != [] {
      var n := |more| - 1;
      StoredStaysFrom(w, more[..n], id);
      RunKeepsPc(w, more[..n]);
      StoredStays(RunFrom(w, more[..n]), more[n], id);
    }
  }

  // Once an intent's order id is stored no further order is ever posted for it, and the id
  // is never overwritten.
  lemma NoPostOnceStored(actions: seq<Action>, more: seq<Action>, id: IntentId)
    requires HasOrder(Run(actions).file, id)
    ensures var w, n := Run(actions), Run(actions + more);
      && HasOrder(n.file, id) && n.file[id].orderId == w.file[id].orderId
      && n.accepted[id] == w.accepted[id]
  {
    RunKeepsPc(START, actions);
    RunConcat(START, actions, more);
    StoredStaysFrom(Run(actions), more, id);
  }

  // A reconcile posts nothing, and a step of it touches only a live intent.
  lemma ReconcileIsReadMostly(w: World, answer: Option<Status>)
    requires PcSound(w) && w.pc.Reconciling?
    ensures var n := Step(w, ReconcileNext(answer));
      && n.accepted == w.accepted && n.file.Keys == w.file.Keys
      && forall id :: id in w.file ==>
           && n.file[id].orderId == w.file[id].orderId
           && (n.file[id] != w.file[id] ==>
                 (w.file[id].status == Pending || w.file[id].status == Submitted) && w.file[id].orderId.Some?)
  {
  }

  // ---- when retrying is safe ----

  // The process does not crash, no reply is lost, and the broker names its orders.
  ghost predicate Calm(actions: seq<Action>) {
    forall i :: 0 <= i < |actions| ==> CalmAction(actions[i])
  }

  predicate CalmAction(a: Action) {
    !a.Crash? && (a.PostAccepted? ==> a.newOrderId != "")
  }

  // No reply for the intent was lost or is without an id.
  ghost predicate NoLapse(w: World, id: IntentId) {
    w.lost[id] == 0 && w.unnamed[id] == 0 && !(w.pc.Posted? && w.pc.id == id && w.pc.orderId == "")
  }

  lemma {:induction false} CalmKeepsNoLapse(w: World, more: seq<Action>, id: IntentId)
    requires NoLapse(w, id) && Calm(more)
    ensures NoLapse(RunFrom(w, more), id)
  {
    if more != [] {
      CalmKeepsNoLapse(w, more[..|more| - 1], id);
      assert CalmAction(more[|more| - 1]);
    }
  }

  lemma SafeWithoutLapse(w: World, more: seq<Action>, id: IntentId)
    requires PcSound(w) && IntentSound(w, id) && NoLapse(w, id) && Calm(more)
    ensures RunFrom(w, more).accepted[id] <= 1
  {
    CalmKeepsNoLapse(w, more, id);
    RunKeepsIntent(w, more, id);
    RunKeepsPc(w, more);
  }

  lemma RunTwo(w: World, a: Action, b: Action)
    ensures RunFrom(w, [a, b]) == Step(Step(w, a), b)
  {
    RunNext(w, [], a);
    RunNext(w, [a], b);
    assert [] + [a] == [a] && [a] + [b] == [a, b];
  }

  lemma RunThree(w: World, a: Action, b: Action, c: Action)
    ensures RunFrom(w, [a, b, c]) == Step(Step(Step(w, a), b), c)
  {
    RunTwo(w, a, b);
    RunNext(w, [a, b], c);
    assert [a, b] + [c] == [a, b, c];
  }

  // Ask for the rest of the list without an answer.
  function Skips(n: nat): (skips: seq<Action>)
    ensures Calm(skips)
  {
    seq(n, i => ReconcileNext(None))
  }

  lemma {:induction false} SkipsDrain(w: World, n: nat)
    requires w.pc.Reconciling? && n <= |w.pc.todo|
    ensures RunFrom(w, Skips(n)) == w.(pc := Reconciling(w.pc.todo[n..]))
  {
    if n > 0 {
      SkipsDrain(w, n - 1);
      RunNext(w, Skips(n - 1), ReconcileNext(None));
      assert Skips(n) == Skips(n - 1) + [ReconcileNext(None)];
      assert w.pc.todo[n - 1..][1..] == w.pc.todo[n..];
    }
  }

  // The actions that let the process finish what it is doing, posting nothing.
  function Finish(pc: Pc): (finish: seq<Action>)
    ensures Calm(finish)
  {
    match pc
    case Idle => []
    case Checked(_, _) => [WriteIntent, PostFailed]
    case Recorded(_) => [PostFailed]
    case Posted(_, _) => [WriteOrderId]
    case Reconciling(todo) => Skips(|todo|) + [ReconcileNext(None)]
  }

  lemma ReconcileDrains(w: World)
    requires w.pc.Reconciling?
    ensures RunFrom(w, Finish(w.pc)) == w.(pc := Idle)
  {
    var n := |w.pc.todo|;
    SkipsDrain(w, n);
    RunNext(w, Skips(n), ReconcileNext(None));
  }

  lemma FinishIdles(w: World, id: IntentId)
    requires PcSound(w) && !NoLapse(w, id)
    ensures var n := RunFrom(w, Finish(w.pc));
      n.pc.Idle? && n.lost[id] + n.unnamed[id] >= 1
  {
    match w.pc
    case Idle =>
    case Checked(_, _) => RunTwo(w, WriteIntent, PostFailed);
    case Recorded(_) => RunNext(w, [], PostFailed);
    case Posted(_, _) => RunNext(w, [], WriteOrderId);
    case Reconciling(_) => ReconcileDrains(w);
  }

  function Attempt(id: IntentId, orderId: OrderId): seq<Action> {
    [Call(id, ""), WriteIntent, PostAccepted(orderId)]
  }

  // One call from an idle process whose intent has no stored order id posts an order.
  lemma CallPosts(w: World, id: IntentId, orderId: OrderId)
    requires w.pc.Idle? && !HasOrder(w.file, id)
    ensures RunFrom(w, Attempt(id, orderId))
            == w.(file := PendingRecorded(w.file, id, ""), accepted := w.accepted + multiset{id},
                  pc := Posted(id, orderId))
  {
    RunThree(w, Call(id, ""), WriteIntent, PostAccepted(orderId));
  }

  lemma RetryAfterLapse(w: World, id: IntentId) returns (more: seq<Action>)
    requires PcSound(w) && IntentSound(w, id) && !NoLapse(w, id)
    ensures Calm(more) && RunFrom(w, more).accepted[id] >= 2
  {
    more := Finish(w.pc);
    var n := RunFrom(w, more);
    FinishIdles(w, id);
    RunKeepsIntent(w, more, id);
    if !HasOrder(n.file, id) {
      CallPosts(n, id, "1");
      RunConcat(w, more, Attempt(id, "1"));
      more := more + Attempt(id, "1");
    }
  }

  // However often an intent is retried after this, it will have at most one order so long as
  // nothing crashes, no reply is lost and every order is named: exactly when no reply for it
  // was lost or is without an id so far.
  lemma RetrySafeIff(actions: seq<Action>, id: IntentId)
    ensures (forall more | Calm(more) :: Run(actions + more).accepted[id] <= 1) <==> NoLapse(Run(actions), id)
  {
    var w := Run(actions);
    RunKeepsPc(START, actions);
    RunKeepsIntent(START, actions, id);
    if NoLapse(w, id) {
      forall more | Calm(more) ensures Run(actions + more).accepted[id] <= 1 {
        RunConcat(START, actions, more);
        SafeWithoutLapse(w, more, id);
      }
    } else {
      var more := RetryAfterLapse(w, id);
      RunConcat(START, actions, more);
      assert Run(actions + more).accepted[id] >= 2;
    }
  }

  // Without crashes an intent that is retried at will gets at most one order.
  lemma AtMostOneOrderWithoutCrash(actions: seq<Action>, id: IntentId)
    requires Calm(actions)
    ensures Run(actions).accepted[id] <= 1
  {
    SafeWithoutLapse(START, actions, id);
  }

  // An order whose id never reaches the disk.
  lemma LapsedAttempt(id: IntentId, orderId: OrderId, middle: Action) returns (actions: seq<Action>)
    requires middle == Crash || (middle == WriteOrderId && orderId == "")
    ensures Run(actions).pc.Idle? && !HasOrder(Run(actions).file, id) && Run(actions).accepted[id] == 1
    ensures forall i :: 0 <= i < |actions| ==> actions[i] == middle || AttemptAction(actions[i], orderId)
  {
    CallPosts(START, id, orderId);
    RunNext(START, Attempt(id, orderId), middle);
    actions := Attempt(id, orderId) + [middle];
  }

  lemma TwoAttempts(id: IntentId, orderId: OrderId, middle: Action) returns (actions: seq<Action>)
    requires middle == Crash || (middle == WriteOrderId && orderId == "")
    ensures Run(actions).accepted[id] == 2
    ensures forall i :: 0 <= i < |actions| ==> actions[i] == middle || AttemptAction(actions[i], orderId)
  {
    actions := LapsedAttempt(id, orderId, middle);
    CallPosts(Run(actions), id, orderId);
    RunConcat(START, actions, Attempt(id, orderId));
    actions := actions + Attempt(id, orderId);
  }

  predicate AttemptAction(a: Action, orderId: OrderId) {
    !a.Crash? && (a.PostAccepted? ==> a.newOrderId == orderId)
  }

  // Both hypotheses matter. A crash after the reply, or a reply whose order id is empty,
  // leaves nothing on disk that stops a retry from placing a second order.
  lemma SecondOrderAfterCrash(id: IntentId)
    ensures exists actions: seq<Action> ::
      && (forall i :: 0 <= i < |actions| && actions[i].PostAccepted? ==> actions[i].newOrderId != "")
      && Run(actions).accepted[id] == 2
  {
    var actions := TwoAttempts(id, "1", Crash);
    assert Run(actions).accepted[id] == 2;
  }

  lemma SecondOrderAfterEmptyId(id: IntentId)
    ensures exists actions: seq<Action> ::
      (forall i :: 0 <= i < |actions| ==> !actions[i].Crash?) && Run(actions).accepted[id] == 2
  {
    var actions := TwoAttempts(id, "", WriteOrderId);
    assert Run(actions).accepted[id] == 2;
  }

  // ---- the methods of the broker class are uninterrupted runs of these steps ----

  lemma CallIsMicroSteps(w: World, id: IntentId, payload: string, reply: PostReply)
    requires w.pc.Idle?
    ensures var post := if reply.Accepted? then PostAccepted(reply.order.orderId) else PostFailed;
      var n := Step(Step(Step(Step(w, Call(id, payload)), WriteIntent), post), WriteOrderId);
      n.pc.Idle? && n.lost == w.lost && (n.file, n.accepted) == CallOutcome(w.file, w.accepted, id, payload, reply)
  {
  }

  ghost function RunReconcile(w: World, answers: Answers): World
    requires w.pc.Reconciling?
    decreases |w.pc.todo|
  {
    if w.pc.todo == [] then Step(w, ReconcileNext(None))
    else RunReconcile(Step(w, ReconcileNext(answers(w.pc.todo[0]))), answers)
  }

  // What the answer for one listed intent does to the file.
  function Refreshed(file: IntentFile, id: IntentId, answers: Answers): Intent
    requires id in file
  {
    if file[id].orderId.Some? && answers(id).Some? then file[id].(status := answers(id).value) else file[id]
  }

  lemma ReconcileOne(w: World, answers: Answers)
    requires w.pc.Reconciling? && w.pc.todo != [] && w.pc.todo[0] in w.file
    ensures var id := w.pc.todo[0];
      Step(w, ReconcileNext(answers(id))) == w.(file := w.file[id := Refreshed(w.file, id, answers)],
                                                pc := Reconciling(w.pc.todo[1..]))
  {
    var id := w.pc.todo[0];
    assert Step(w, ReconcileNext(answers(id))).file == w.file[id := Refreshed(w.file, id, answers)];
  }

  lemma {:induction false} ReconcileRunsThrough(w: World, answers: Answers)
    requires w.pc.Reconciling? && (forall id :: id in w.pc.todo ==> id in w.file)
    requires forall i, j :: 0 <= i < j < |w.pc.todo| ==> w.pc.todo[i] != w.pc.todo[j]
    ensures var n := RunReconcile(w, answers);
      && n.pc.Idle? && n.accepted == w.accepted && n.lost == w.lost && n.unnamed == w.unnamed
      && n.file.Keys == w.file.Keys
      && forall id :: id in w.file ==>
           n.file[id] == if id in w.pc.todo then Refreshed(w.file, id, answers) else w.file[id]
    decreases |w.pc.todo|
  {
    if w.pc.todo != [] {
      var first, rest := w.pc.todo[0], w.pc.todo[1..];
      assert forall id :: id in w.pc.todo <==> id == first || id in rest;
      ReconcileOne(w, answers);
      ReconcileRunsThrough(w.(file := w.file[first := Refreshed(w.file, first, answers)], pc := Reconciling(rest)),
                           answers);
    }
  }

  lemma ReconcileIsMicroSteps(w: World, pending: seq<IntentId>, answers: Answers)
    requires w.pc.Idle? && ListsPending(w.file, pending)
    ensures RunReconcile(Step(w, StartReconcile(pending)), answers) == w.(file := Reconciled(w.file, answers))
  {
    ReconcileRunsThrough(Step(w, StartReconcile(pending)), answers);
    assert RunReconcile(Step(w, StartReconcile(pending)), answers).file == Reconciled(w.file, answers);
  }
}

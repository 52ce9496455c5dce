/** Which result every notification gets, and in which order they are sent
    (services/notifications/providers.py, `TelegramNotifier`). */
module NotificationResults {
  import opened Prelude
  import opened Notifications

  // ---------- which step decides ----------

  ghost predicate IsSending(n: Notifier, id: nat) {
    n.worker.Some? && n.worker.value.Sending? && n.worker.value.item.id == id
  }

  ghost predicate InQueue(n: Notifier, id: nat) {
    n.queue.Some? && exists j :: 0 <= j < |n.queue.value| && n.queue.value[j].id == id
  }

  /** The worker was sending the notification and the POST went through. */
  ghost predicate Succeeds(n: Notifier, step: Step, id: nat) {
    step == Deliver(Sent) && IsSending(n, id)
  }

  /** It is the oldest of a full queue that another one enters. */
  ghost predicate IsPushedOut(n: Notifier, id: nat) {
    n.queue.Some? && n.queueSize > 0 && |n.queue.value| >= n.queueSize && n.queue.value[0].id == id
  }

  /** The POST failed or was the last one allowed, a newer notification pushed it out, the queue it
      should enter again is gone, or a close cancelled or drained it. */
  ghost predicate Fails(n: Notifier, step: Step, id: nat) {
    match step
    case Deliver(Sent) => false
    case Deliver(Failed) => IsSending(n, id)
    case Deliver(RateLimited) => IsSending(n, id) && n.worker.value.item.attempts + 1 >= n.maxRetries
    case Send(_) => !n.closed && n.worker.Some? && (n.queue.Some? ==> IsPushedOut(n, id)) && (n.queue.None? ==> step.id == id)
    case Requeue => n.worker.Some? && n.worker.value.Cooling?
                    && (if n.queue.Some? then IsPushedOut(n, id) else n.worker.value.item.id == id)
    case CloseBegin => n.worker.None? && InQueue(n, id)
    case Cancelled(k) => k < |n.closers| && n.closers[k].Some? && !n.closers[k].value.Idle? && n.closers[k].value.item.id == id
    case CloseEnd(_) => InQueue(n, id)
    case _ => false
  }

  lemma {:induction false} FailAllSets(results: map<nat, bool>, items: seq<Item>, id: nat)
    ensures var r, hit := FailAll(results, items), exists j :: 0 <= j < |items| && items[j].id == id;
      if hit then id in r && !r[id] else (id in r <==> id in results) && (id in r ==> r[id] == results[id])
  {
    if items != [] {
      var front := items[..|items| - 1];
      FailAllSets(results, front, id);
      assert forall j :: 0 <= j < |front| ==> front[j] == items[j];
    }
  }

  /** A step resolves exactly the notifications that it succeeds or fails, with that result. */
  lemma StepResolves(n: Notifier, step: Step, id: nat)
    requires Enabled(n, step) && id !in n.results
    ensures var r := Effect(n, step).results;
      && (id in r && r[id] <==> Succeeds(n, step, id))
      && (id in r && !r[id] <==> Fails(n, step, id))
  {
    match step
    case Cancelled(k) => FailAllSets(n.results, ItemOf(n.closers[k].value), id);
    case CloseBegin => FailAllSets(n.results, Items(n.queue), id);
    case CloseEnd(_) => FailAllSets(n.results, Items(n.queue), id);
    case _ =>
  }

  /** Step `k` of the run succeeds, or fails, the notification. */
  ghost predicate SucceedsAt(n: Notifier, steps: seq<Step>, k: nat, id: nat) {
    k < |steps| && ValidRun(n, steps[..k]) && Succeeds(Run(n, steps[..k]), steps[k], id)
  }

  ghost predicate FailsAt(n: Notifier, steps: seq<Step>, k: nat, id: nat) {
    k < |steps| && ValidRun(n, steps[..k]) && Fails(Run(n, steps[..k]), steps[k], id)
  }

  lemma {:induction false} CountHas(items: seq<Item>, j: nat)
    requires j < |items|
    ensures Count(items, items[j].id) >= 1
  {
    if j < |items| - 1 {
      CountHas(items[..|items| - 1], j);
    }
  }

  /** Only what is still unresolved can be decided. */
  lemma DecidesUnresolved(n: Notifier, step: Step, id: nat)
    requires OnePlace(n) && Enabled(n, step) && (Succeeds(n, step, id) || Fails(n, step, id))
    ensures id !in n.results
  {
    assert Places(n, id) == if id in n.accepted then 1 else 0;
    if InQueue(n, id) {
      var j :| 0 <= j < |n.queue.value| && n.queue.value[j].id == id;
      CountHas(n.queue.value, j);
    }
    if IsPushedOut(n, id) {
      CountHas(n.queue.value, 0);
    }
    match step
    case Deliver(_) => CountOne(n.worker.value.item, id);
    case Requeue => CountOne(n.worker.value.item, id);
    case Cancelled(k) =>
      DyingUnwound(n.closers, k, id);
      CountOne(n.closers[k].value.item, id);
    case _ =>
  }

  lemma RunSnoc(n: Notifier, steps: seq<Step>, k: nat, id: nat)
    requires steps != [] && ValidRun(n, steps)
    ensures var m := |steps| - 1;
      && (SucceedsAt(n, steps, k, id) <==> if k == m then Succeeds(Run(n, steps[..m]), steps[m], id) else SucceedsAt(n, steps[..m], k, id))
      && (FailsAt(n, steps, k, id) <==> if k == m then Fails(Run(n, steps[..m]), steps[m], id) else FailsAt(n, steps[..m], k, id))
  {
    hide Succeeds, Fails, Effect, Enabled;
    var m := |steps| - 1;
    if k < m {
      assert steps[..m][..k] == steps[..k] && steps[..m][k] == steps[k];
    }
  }

  lemma {:induction false} RunResolves(n: Notifier, steps: seq<Step>, id: nat)
    requires OnePlace(n) && Shape(n) && n.results == map[] && ValidRun(n, steps)
    ensures var r := Run(n, steps).results;
      && (id in r && r[id] <==> exists k: nat :: SucceedsAt(n, steps, k, id))
      && (id in r && !r[id] <==> exists k: nat :: FailsAt(n, steps, k, id))
  {
    hide OnePlace, Shape, Effect, Enabled, Succeeds, Fails;
    if steps != [] {
      var m := |steps| - 1;
      var v, step := Run(n, steps[..m]), steps[m];
      RunResolves(n, steps[..m], id);
      RunKeeps(n, steps[..m]);
      if id in v.results {
        ResultsAreFinal(v, step, id);
        if Succeeds(v, step, id) || Fails(v, step, id) {
          DecidesUnresolved(v, step, id);
        }
      } else {
        StepResolves(v, step, id);
      }
      forall k: nat
        ensures SucceedsAt(n, steps, k, id) <==> if k == m then Succeeds(v, step, id) else SucceedsAt(n, steps[..m], k, id)
        ensures FailsAt(n, steps, k, id) <==> if k == m then Fails(v, step, id) else FailsAt(n, steps[..m], k, id)
      {
        RunSnoc(n, steps, k, id);
      }
      LastStep(n, steps, m, id);
    }
  }

  lemma LastStep(n: Notifier, steps: seq<Step>, m: nat, id: nat)
    requires steps != [] && ValidRun(n, steps) && m == |steps| - 1
    ensures (exists k: nat :: SucceedsAt(n, steps, k, id))
       <==> Succeeds(Run(n, steps[..m]), steps[m], id) || exists k: nat :: SucceedsAt(n, steps[..m], k, id)
    ensures (exists k: nat :: FailsAt(n, steps, k, id))
       <==> Fails(Run(n, steps[..m]), steps[m], id) || exists k: nat :: FailsAt(n, steps[..m], k, id)
  {
    hide Succeeds, Fails, Effect, Enabled;
    RunSnoc(n, steps, m, id);
    forall k: nat
      ensures SucceedsAt(n, steps, k, id) && k != m <==> SucceedsAt(n, steps[..m], k, id)
      ensures FailsAt(n, steps, k, id) && k != m <==> FailsAt(n, steps[..m], k, id)
    {
      RunSnoc(n, steps, k, id);
    }
  }

  /** Over any run a notification's result is `true` exactly when its POST went through while the worker
      was sending it, and `false` exactly when a step failed it: a refused POST, the last one allowed, a
      full queue, a queue that is gone, a cancellation or a drain. */
  lemma ResultIff(queueSize: int, maxRetries: int, steps: seq<Step>, id: nat)
    requires ValidRun(New(queueSize, maxRetries), steps)
    ensures var n := New(queueSize, maxRetries);
      var r := Run(n, steps).results;
      && (id in r && r[id] <==> exists k: nat :: SucceedsAt(n, steps, k, id))
      && (id in r && !r[id] <==> exists k: nat :: FailsAt(n, steps, k, id))
  {
    RunResolves(New(queueSize, maxRetries), steps, id);
  }

  // ---------- giving up ----------

  /** A rate-limited POST is the notification's last exactly when it has used up the limit, which is at
      least one. */
  lemma GivesUpIff(queueSize: int, maxRetries: int, steps: seq<Step>, id: nat)
    requires ValidRun(New(queueSize, maxRetries), steps) && IsSending(Run(New(queueSize, maxRetries), steps), id)
    ensures var n := Run(New(queueSize, maxRetries), steps);
      Fails(n, Deliver(RateLimited), id) <==> Posts(n, id) + 1 == if maxRetries < 1 then 1 else maxRetries
  {
    var start := New(queueSize, maxRetries);
    RunKeepsPosts(start, steps);
    var n := Run(start, steps);
    assert n.worker.value.item in InWorker(n.worker);
    assert ItemOk(n, n.worker.value.item);
  }

  // ---------- first come, first served ----------

  /** The one was given to `send` before the other. */
  ghost predicate SentBefore(steps: seq<Step>, x: nat, y: nat) {
    exists i, j :: 0 <= i < j < |steps| && steps[i] == Send(x) && steps[j] == Send(y)
  }

  ghost predicate WasSent(steps: seq<Step>, x: nat) {
    exists i :: 0 <= i < |steps| && steps[i] == Send(x)
  }

  /** Of two queued notifications that were never posted, the one in front was sent earlier. */
  ghost predicate InOrder(steps: seq<Step>, queue: seq<Item>) {
    forall p, q :: 0 <= p < q < |queue| && queue[p].attempts == 0 && queue[q].attempts == 0 ==> SentBefore(steps, queue[p].id, queue[q].id)
  }

  /** Ids in the queue or accepted come from sends; requeued items have been posted. */
  ghost predicate Known(steps: seq<Step>, n: Notifier) {
    && (forall p :: 0 <= p < |Items(n.queue)| ==> WasSent(steps, Items(n.queue)[p].id))
    && (forall item :: n.worker == Some(Cooling(item)) ==> item.attempts > 0)
    && (forall item :: item in InWorker(n.worker) ==> WasSent(steps, item.id))
  }

  lemma Later(steps: seq<Step>, step: Step)
    ensures forall x :: WasSent(steps, x) ==> WasSent(steps + [step], x)
    ensures forall x, y :: SentBefore(steps, x, y) ==> SentBefore(steps + [step], x, y)
    ensures forall x :: step.Send? && WasSent(steps, x) ==> SentBefore(steps + [step], x, step.id)
    ensures step.Send? ==> WasSent(steps + [step], step.id)
  {
    var all := steps + [step];
    assert forall i :: 0 <= i < |steps| ==> all[i] == steps[i];
    assert all[|steps|] == step;
  }

  /** The queue after a step: its front taken or pushed out, at most one new item at its end, or empty. */
  ghost predicate Moves(n: Notifier, step: Step, after: seq<Item>) {
    var q := Items(n.queue);
    || after == [] || after == q || (q != [] && after == q[1..])
    || exists item :: (after == q + [item] || (q != [] && after == q[1..] + [item]) || after == [item])
                      && (if step.Send? then item == Item(step.id, 0)
                          else step == Requeue && n.worker == Some(Cooling(item)))
  }

  lemma QueueMoves(n: Notifier, step: Step)
    requires Enabled(n, step)
    ensures Moves(n, step, Items(Effect(n, step).queue))
  {
    var q := Items(n.queue);
    assert [] + [Item(0, 0)] == [Item(0, 0)];
    match step
    case Send(id) => assert [] + [Item(id, 0)] == [Item(id, 0)];
    case Requeue => assert [] + [n.worker.value.item] == [n.worker.value.item];
    case _ =>
  }

  lemma OrderKept(steps: seq<Step>, n: Notifier, step: Step, after: seq<Item>)
    requires InOrder(steps, Items(n.queue)) && Known(steps, n) && Moves(n, step, after)
    ensures InOrder(steps + [step], after)
    ensures forall p :: 0 <= p < |after| ==> WasSent(steps + [step], after[p].id)
  {
    hide WasSent, SentBefore;
    Later(steps, step);
  }

  lemma WorkerKnown(steps: seq<Step>, n: Notifier, step: Step)
    requires Known(steps, n) && Enabled(n, step)
    ensures var w := Effect(n, step).worker;
      && (forall item :: w == Some(Cooling(item)) ==> item.attempts > 0)
      && (forall item :: item in InWorker(w) ==> WasSent(steps, item.id))
  {
    hide WasSent;
  }

  lemma {:induction false} RunInOrder(queueSize: int, maxRetries: int, steps: seq<Step>)
    requires ValidRun(New(queueSize, maxRetries), steps)
    ensures var n := Run(New(queueSize, maxRetries), steps); InOrder(steps, Items(n.queue)) && Known(steps, n)
  {
    hide Effect, Enabled, InOrder, WasSent, Moves;
    var start := New(queueSize, maxRetries);
    if steps == [] {
      NothingQueued(start);
    } else {
      var front, step := steps[..|steps| - 1], steps[|steps| - 1];
      var n := Run(start, front);
      RunInOrder(queueSize, maxRetries, front);
      QueueMoves(n, step);
      OrderKept(front, n, step, Items(Effect(n, step).queue));
      WorkerKnown(front, n, step);
      Later(front, step);
      assert steps == front + [step];
    }
  }

  lemma NothingQueued(n: Notifier)
    requires n.queue.None? && n.worker.None?
    ensures InOrder([], Items(n.queue)) && Known([], n)
  {
  }

  /** First come, first served: what the worker takes is the front of the queue, and if it was never posted
      it was sent before everything else that was not and still waits. */
  lemma TakesFirstSent(queueSize: int, maxRetries: int, steps: seq<Step>, item: Item)
    requires ValidRun(New(queueSize, maxRetries), steps)
    requires var n := Run(New(queueSize, maxRetries), steps);
      Enabled(n, Take) && Effect(n, Take).worker == Some(Sending(item)) && item.attempts == 0
    ensures var after := Effect(Run(New(queueSize, maxRetries), steps), Take);
      forall other :: other in Items(after.queue) && other.attempts == 0 ==> SentBefore(steps, item.id, other.id)
  {
    RunInOrder(queueSize, maxRetries, steps);
    hide SentBefore;
    var q := Items(Run(New(queueSize, maxRetries), steps).queue);
    assert item == q[0];
    forall other | other in q[1..] && other.attempts == 0
      ensures SentBefore(steps, item.id, other.id)
    {
      var p :| 0 <= p < |q[1..]| && q[1..][p] == other;
      assert q[p + 1] == other;
    }
  }
}

/** The Telegram send queue (services/notifications/providers.py, `TelegramNotifier`): a bounded
    queue, one worker, and a result future per notification. A step is what one coroutine does
    between two awaits. */
module Notifications {
  import opened Prelude

  datatype Item = Item(id: nat, attempts: nat)

  datatype Worker = Idle | Sending(item: Item) | Cooling(item: Item)

  /** `worker` is the running send task. Each of the `closers` is a `close` that waits for the worker
      it cancelled: `None` once that worker has unwound. `lost` holds the items of a queue that
      `start` replaced; `results` are the futures set. */
  datatype Notifier = Notifier(
    queueSize: int, maxRetries: int,
    queue: Option<seq<Item>>, worker: Option<Worker>, closers: seq<Option<Worker>>,
    closed: bool, lost: seq<Item>,
    accepted: set<nat>, results: map<nat, bool>, posts: map<nat, nat>)

  datatype Reply = Sent | Failed | RateLimited

  datatype Step = Start | Send(id: nat) | Take | Deliver(reply: Reply) | Requeue | CloseBegin | Cancelled(k: nat) | CloseEnd(k: nat)

  function New(queueSize: int, maxRetries: int): Notifier {
    Notifier(queueSize, maxRetries, None, None, [], false, [], {}, map[], map[])
  }

  function Resolve(n: Notifier, id: nat, result: bool): Notifier {
    n.(results := n.results[id := result])
  }

  function Posts(n: Notifier, id: nat): nat {
    if id in n.posts then n.posts[id] else 0
  }

  function Items(queue: Option<seq<Item>>): seq<Item> {
    if queue.Some? then queue.value else []
  }

  function Started(n: Notifier): Notifier {
    if n.worker.Some? then n
    else n.(closed := false, lost := n.lost + Items(n.queue), queue := Some([]), worker := Some(Idle))
  }

  /** A full queue drops its oldest item. */
  function Enqueue(n: Notifier, item: Item): Notifier {
    if n.queue.None? then Resolve(n, item.id, false)
    else
      var q := n.queue.value;
      if n.queueSize > 0 && |q| >= n.queueSize
      then Resolve(n, q[0].id, false).(queue := Some(q[1..] + [item]))
      else n.(queue := Some(q + [item]))
  }

  /** A rate-limited send is counted and, unless it was the last allowed, waits to be queued again. */
  function Delivered(n: Notifier, item: Item, reply: Reply): Notifier {
    var n1 := n.(posts := n.posts[item.id := Posts(n, item.id) + 1]);
    match reply
    case Sent => Resolve(n1, item.id, true).(worker := Some(Idle))
    case Failed => Resolve(n1, item.id, false).(worker := Some(Idle))
    case RateLimited =>
      if item.attempts + 1 >= n.maxRetries then Resolve(n1, item.id, false).(worker := Some(Idle))
      else n1.(worker := Some(Cooling(item.(attempts := item.attempts + 1))))
  }

  function ItemOf(w: Worker): seq<Item> {
    match w
    case Idle => []
    case Sending(item) => [item]
    case Cooling(item) => [item]
  }

  function FailAll(results: map<nat, bool>, items: seq<Item>): map<nat, bool> {
    if items == [] then results else FailAll(results, items[..|items| - 1])[items[|items| - 1].id := false]
  }

  /** Fail whatever is still queued. */
  function Drained(n: Notifier): Notifier {
    n.(results := FailAll(n.results, Items(n.queue)), queue := None)
  }

  /** `cs` without its `k`th entry. */
  function Without(cs: seq<Option<Worker>>, k: nat): seq<Option<Worker>>
    requires k < |cs|
  {
    cs[..k] + cs[k + 1..]
  }

  predicate Enabled(n: Notifier, step: Step) {
    match step
    case Start => true
    case Send(id) => id !in n.accepted
    case Take => n.worker == Some(Idle) && Items(n.queue) != []
    case Deliver(_) => n.worker.Some? && n.worker.value.Sending?
    case Requeue => n.worker.Some? && n.worker.value.Cooling?
    case CloseBegin => true
    case Cancelled(k) => k < |n.closers| && n.closers[k].Some?
    case CloseEnd(k) => k < |n.closers| && n.closers[k].None?
  }

  function Effect(n: Notifier, step: Step): Notifier
    requires Enabled(n, step)
  {
    match step
    case Start => Started(n)
    case Send(id) =>
      if n.closed then n
      else
        var n1 := if n.worker.None? then Started(n) else n;
        Enqueue(n1.(accepted := n1.accepted + {id}), Item(id, 0))
    case Take => n.(queue := Some(n.queue.value[1..]), worker := Some(Sending(n.queue.value[0])))
    case Deliver(reply) => Delivered(n, n.worker.value.item, reply)
    case Requeue => Enqueue(n.(worker := Some(Idle)), n.worker.value.item)
    case CloseBegin =>
      if n.worker.None? then Drained(n).(closed := true)
      else n.(closed := true, closers := n.closers + [n.worker], worker := None)
    case Cancelled(k) => n.(results := FailAll(n.results, ItemOf(n.closers[k].value)), closers := n.closers[k := None])
    case CloseEnd(k) => Drained(n).(closers := Without(n.closers, k))
  }

  predicate ValidRun(n: Notifier, steps: seq<Step>)
    decreases |steps|, 0
  {
    steps == []
    || (ValidRun(n, steps[..|steps| - 1]) && Enabled(Run(n, steps[..|steps| - 1]), steps[|steps| - 1]))
  }

  function Run(n: Notifier, steps: seq<Step>): Notifier
    requires ValidRun(n, steps)
    decreases |steps|, 1
  {
    if steps == [] then n else Effect(Run(n, steps[..|steps| - 1]), steps[|steps| - 1])
  }

  // ---------- where every notification is ----------

  function Count(items: seq<Item>, id: nat): nat {
    if items == [] then 0 else Count(items[..|items| - 1], id) + (if items[|items| - 1].id == id then 1 else 0)
  }

  function InWorker(w: Option<Worker>): seq<Item> {
    if w.Some? then ItemOf(w.value) else []
  }

  /** How many of the cancelled workers still hold the notification. */
  function Dying(cs: seq<Option<Worker>>, id: nat): nat {
    if cs == [] then 0 else Dying(cs[..|cs| - 1], id) + Count(InWorker(cs[|cs| - 1]), id)
  }

  /** In how many places the notification is: queue, worker, cancelled workers, lost, resolved. */
  function Places(n: Notifier, id: nat): nat {
    Count(Items(n.queue), id) + Count(InWorker(n.worker), id) + Dying(n.closers, id) + Count(n.lost, id)
    + (if id in n.results then 1 else 0)
  }

  ghost predicate OnePlace(n: Notifier) {
    forall id :: Places(n, id) == if id in n.accepted then 1 else 0
  }

  /** The lifecycle of queue and tasks: a closed notifier has no worker, and once the close has
      finished no queue; the queue never outgrows its bound. */
  predicate Shape(n: Notifier) {
    && (n.closed ==> n.worker.None?)
    && (n.closed && n.closers == [] ==> n.queue.None?)
    && (!n.closed && n.worker.None? ==> n.queue.None? && n.closers == [])
    && (n.queueSize > 0 ==> |Items(n.queue)| <= n.queueSize)
  }

  lemma CountSnoc(items: seq<Item>, item: Item, id: nat)
    ensures Count(items + [item], id) == Count(items, id) + (if item.id == id then 1 else 0)
  {
    assert (items + [item])[..|items|] == items;
  }

  lemma {:induction false} CountConcat(a: seq<Item>, b: seq<Item>, id: nat)
    ensures Count(a + b, id) == Count(a, id) + Count(b, id)
  {
    if b == [] {
      assert a + b == a;
    } else {
      assert (a + b)[..|a + b| - 1] == a + b[..|b| - 1];
      CountConcat(a, b[..|b| - 1], id);
    }
  }

  lemma CountFirst(items: seq<Item>, id: nat)
    requires items != []
    ensures Count(items, id) == Count(items[1..], id) + (if items[0].id == id then 1 else 0)
  {
    var first := [items[0]];
    assert items == first + items[1..];
    CountConcat(first, items[1..], id);
    CountSnoc([], items[0], id);
    assert [] + first == first;
  }

  lemma CountOne(item: Item, id: nat)
    ensures Count([item], id) == if item.id == id then 1 else 0
  {
    CountSnoc([], item, id);
    assert [] + [item] == [item];
  }

  lemma DyingSnoc(cs: seq<Option<Worker>>, w: Option<Worker>, id: nat)
    ensures Dying(cs + [w], id) == Dying(cs, id) + Count(InWorker(w), id)
  {
    assert (cs + [w])[..|cs|] == cs;
  }

  /** A cancelled worker that has unwound holds nothing any more. */
  lemma {:induction false} DyingUnwound(cs: seq<Option<Worker>>, k: nat, id: nat)
    requires k < |cs|
    ensures Dying(cs, id) == Dying(cs[k := None], id) + Count(InWorker(cs[k]), id)
  {
    hide Count, InWorker;
    CountNone(id);
    NoWorker();
    var n := |cs| - 1;
    if k < n {
      DyingUnwound(cs[..n], k, id);
      assert cs[k := None][..n] == cs[..n][k := None];
    } else {
      assert cs[k := None][..n] == cs[..n];
    }
  }

  lemma NoWorker()
    ensures InWorker(None) == []
  {
  }

  lemma {:induction false} DyingWithout(cs: seq<Option<Worker>>, k: nat, id: nat)
    requires k < |cs| && cs[k].None?
    ensures Dying(Without(cs, k), id) == Dying(cs, id)
  {
    hide Count, InWorker;
    CountNone(id);
    NoWorker();
    var n := |cs| - 1;
    if k < n {
      DyingWithout(cs[..n], k, id);
      assert Without(cs, k)[..n - 1] == Without(cs[..n], k);
    } else {
      assert Without(cs, k) == cs[..n];
    }
  }

  lemma {:induction false} FailAllResults(results: map<nat, bool>, items: seq<Item>, id: nat)
    ensures id in FailAll(results, items) <==> id in results || Count(items, id) > 0
  {
    if items != [] {
      FailAllResults(results, items[..|items| - 1], id);
    }
  }

  lemma StartedPlaces(n: Notifier, id: nat)
    ensures Places(Started(n), id) == Places(n, id)
  {
    CountConcat(n.lost, Items(n.queue), id);
  }

  /** Queueing an item that is nowhere yet puts it, or the dropped oldest, in exactly one new place. */
  lemma EnqueuePlaces(n: Notifier, item: Item, id: nat)
    requires Places(n, item.id) == 0
    requires Items(n.queue) != [] ==> Places(n, Items(n.queue)[0].id) == 1
    ensures Places(Enqueue(n, item), id) == Places(n, id) + (if id == item.id then 1 else 0)
  {
    if n.queue.Some? {
      var q := n.queue.value;
      if n.queueSize > 0 && |q| >= n.queueSize {
        CountFirst(q, id);
        CountFirst(q, q[0].id);
        CountSnoc(q[1..], item, id);
      } else {
        CountSnoc(q, item, id);
      }
    }
  }

  lemma DeliveredPlaces(n: Notifier, reply: Reply, id: nat)
    requires n.worker.Some? && n.worker.value.Sending? && Places(n, n.worker.value.item.id) == 1
    ensures Places(Delivered(n, n.worker.value.item, reply), id) == Places(n, id)
  {
    var item := n.worker.value.item;
    CountOne(item, id);
    CountOne(item, item.id);
    CountOne(item.(attempts := item.attempts + 1), id);
    CountNone(id);
    hide Count;
    assert item.id !in n.results;
    var t := Delivered(n, item, reply);
    assert t.queue == n.queue && t.closers == n.closers && t.lost == n.lost;
    assert if t.worker == Some(Idle) then t.results.Keys == n.results.Keys + {item.id}
           else t.results == n.results && InWorker(t.worker) == [item.(attempts := item.attempts + 1)];
    hide Delivered;
  }

  lemma CountNone(id: nat)
    ensures Count([], id) == 0
  {
  }

  lemma FirstHasPlace(n: Notifier)
    requires OnePlace(n) && Items(n.queue) != []
    ensures Places(n, Items(n.queue)[0].id) == 1
  {
    var q := Items(n.queue);
    CountFirst(q, q[0].id);
    assert Places(n, q[0].id) == if q[0].id in n.accepted then 1 else 0;
  }

  lemma WorkerHasPlace(n: Notifier, item: Item)
    requires OnePlace(n) && InWorker(n.worker) == [item]
    ensures Places(n, item.id) == 1
  {
    CountOne(item, item.id);
    assert Places(n, item.id) == if item.id in n.accepted then 1 else 0;
  }

  /** A notifier that has just accepted `new_` has not placed it anywhere yet. */
  lemma AcceptPlaces(n: Notifier, n2: Notifier, id: nat)
    requires OnePlace(n) && n2 == (if n.worker.None? then Started(n) else n).(accepted := n2.accepted)
    ensures Places(n2, id) == if id in n.accepted then 1 else 0
  {
    StartedPlaces(n, id);
    assert Places(n, id) == if id in n.accepted then 1 else 0;
  }

  lemma SendPlaces(n: Notifier, new_: nat)
    requires OnePlace(n) && new_ !in n.accepted
    ensures OnePlace(Effect(n, Send(new_)))
  {
    if !n.closed {
      var n2 := (if n.worker.None? then Started(n) else n).(accepted := n.accepted + {new_});
      if Items(n2.queue) != [] {
        var first := Items(n2.queue)[0].id;
        AcceptPlaces(n, n2, first);
        CountFirst(Items(n2.queue), first);
      }
      hide Places, Started;
      AcceptPlaces(n, n2, new_);
      forall id
        ensures Places(Enqueue(n2, Item(new_, 0)), id) == if id in n2.accepted then 1 else 0
      {
        AcceptPlaces(n, n2, id);
        EnqueuePlaces(n2, Item(new_, 0), id);
      }
      EnqueueAccepted(n2, Item(new_, 0));
    }
  }

  lemma EnqueueAccepted(n: Notifier, item: Item)
    ensures Enqueue(n, item).accepted == n.accepted
  {
  }

  lemma RequeuePlaces(n: Notifier)
    requires OnePlace(n) && Enabled(n, Requeue)
    ensures OnePlace(Effect(n, Requeue))
  {
    var item, n1 := n.worker.value.item, n.(worker := Some(Idle));
    WorkerHasPlace(n, item);
    forall id
      ensures Places(n1, id) == Places(n, id) - (if id == item.id then 1 else 0)
    {
      CountOne(item, id);
    }
    if Items(n.queue) != [] {
      FirstHasPlace(n);
      var first := Items(n.queue)[0];
      CountFirst(Items(n.queue), first.id);
      CountOne(item, first.id);
      CountFirst(Items(n.queue), item.id);
    }
    hide Places;
    forall id
      ensures Places(Enqueue(n1, item), id) == if id in n.accepted then 1 else 0
    {
      EnqueuePlaces(n1, item, id);
      assert Places(n, id) == if id in n.accepted then 1 else 0;
    }
  }

  lemma TakePlaces(n: Notifier)
    requires OnePlace(n) && Enabled(n, Take)
    ensures OnePlace(Effect(n, Take))
  {
    forall id
      ensures Places(Effect(n, Take), id) == Places(n, id)
    {
      CountFirst(n.queue.value, id);
      CountOne(n.queue.value[0], id);
    }
  }

  lemma CancelPlaces(n: Notifier, k: nat)
    requires OnePlace(n) && Enabled(n, Cancelled(k))
    ensures OnePlace(Effect(n, Cancelled(k)))
  {
    forall id
      ensures Places(Effect(n, Cancelled(k)), id) == Places(n, id)
    {
      FailAllResults(n.results, ItemOf(n.closers[k].value), id);
      DyingUnwound(n.closers, k, id);
      assert Places(n, id) == if id in n.accepted then 1 else 0;
      hide Count, Dying;
    }
  }

  lemma EndPlaces(n: Notifier, k: nat)
    requires OnePlace(n) && Enabled(n, CloseEnd(k))
    ensures OnePlace(Effect(n, CloseEnd(k)))
  {
    hide Count, Dying, FailAll, Without;
    forall id
      ensures Places(Effect(n, CloseEnd(k)), id) == Places(n, id)
    {
      DrainedPlaces(n, id);
      DyingWithout(n.closers, k, id);
    }
  }

  lemma StartPlaces(n: Notifier)
    requires OnePlace(n)
    ensures OnePlace(Effect(n, Start))
  {
    hide Count, Dying;
    forall id {
      StartedPlaces(n, id);
    }
  }

  lemma DeliverPlaces(n: Notifier, reply: Reply)
    requires OnePlace(n) && Enabled(n, Deliver(reply))
    ensures OnePlace(Effect(n, Deliver(reply)))
  {
    WorkerHasPlace(n, n.worker.value.item);
    hide Count, Dying, Delivered, Places;
    forall id {
      DeliveredPlaces(n, reply, id);
    }
    DeliveredAccepted(n, reply);
  }

  lemma DeliveredAccepted(n: Notifier, reply: Reply)
    requires Enabled(n, Deliver(reply))
    ensures Delivered(n, n.worker.value.item, reply).accepted == n.accepted
  {
  }

  /** One step never loses, duplicates or resolves twice. */
  lemma StepKeepsPlaces(n: Notifier, step: Step)
    requires OnePlace(n) && Shape(n) && Enabled(n, step)
    ensures OnePlace(Effect(n, step))
  {
    hide OnePlace, Shape, Effect;
    match step
    case Send(id) => SendPlaces(n, id);
    case Requeue => RequeuePlaces(n);
    case Start => StartPlaces(n);
    case Take => TakePlaces(n);
    case Deliver(reply) => DeliverPlaces(n, reply);
    case CloseBegin => ClosePlaces(n);
    case Cancelled(k) => CancelPlaces(n, k);
    case CloseEnd(k) => EndPlaces(n, k);
  }

  lemma DrainedPlaces(n: Notifier, id: nat)
    requires OnePlace(n)
    ensures Places(Drained(n), id) == Places(n, id)
  {
    FailAllResults(n.results, Items(n.queue), id);
    assert Places(n, id) == if id in n.accepted then 1 else 0;
  }

  lemma ClosePlaces(n: Notifier)
    requires OnePlace(n)
    ensures OnePlace(Effect(n, CloseBegin))
  {
    NoWorker();
    hide Count, Dying, FailAll, InWorker;
    forall id
      ensures Places(Effect(n, CloseBegin), id) == Places(n, id)
    {
      DrainedPlaces(n, id);
      CountNone(id);
      DyingSnoc(n.closers, n.worker, id);
    }
  }

  lemma StepKeepsShape(n: Notifier, step: Step)
    requires Shape(n) && Enabled(n, step)
    ensures Shape(Effect(n, step))
  {
  }

  lemma {:induction false} RunKeeps(n: Notifier, steps: seq<Step>)
    requires OnePlace(n) && Shape(n) && ValidRun(n, steps)
    ensures OnePlace(Run(n, steps)) && Shape(Run(n, steps))
  {
    hide OnePlace, Shape, Effect, Enabled;
    if steps != [] {
      RunKeeps(n, steps[..|steps| - 1]);
      StepKeepsPlaces(Run(n, steps[..|steps| - 1]), steps[|steps| - 1]);
      StepKeepsShape(Run(n, steps[..|steps| - 1]), steps[|steps| - 1]);
    }
  }

  /** Over any run, every accepted notification is in exactly one place, resolved included, and no
      other notification is anywhere. */
  lemma {:induction false} ExactlyOnePlace(queueSize: int, maxRetries: int, steps: seq<Step>, id: nat)
    requires ValidRun(New(queueSize, maxRetries), steps)
    ensures var n := Run(New(queueSize, maxRetries), steps); Places(n, id) == if id in n.accepted then 1 else 0
  {
    RunKeeps(New(queueSize, maxRetries), steps);
  }

  /** A future that is set stays as it was set. */
  lemma ResultsAreFinal(n: Notifier, step: Step, id: nat)
    requires OnePlace(n) && Enabled(n, step) && id in n.results
    ensures id in Effect(n, step).results && Effect(n, step).results[id] == n.results[id]
  {
    assert Places(n, id) == if id in n.accepted then 1 else 0;
    match step
    case Send(new_) =>
      if !n.closed {
        var n1 := if n.worker.None? then Started(n) else n;
        EnqueueFinal(n1.(accepted := n1.accepted + {new_}), Item(new_, 0), id);
      }
    case Requeue =>
      CountOne(n.worker.value.item, id);
      EnqueueFinal(n.(worker := Some(Idle)), n.worker.value.item, id);
    case Deliver(_) => CountOne(n.worker.value.item, id);
    case Cancelled(k) =>
      DyingUnwound(n.closers, k, id);
      FailAllFinal(n.results, ItemOf(n.closers[k].value), id);
    case CloseBegin => FailAllFinal(n.results, Items(n.queue), id);
    case CloseEnd(_) => FailAllFinal(n.results, Items(n.queue), id);
    case _ =>
  }

  lemma EnqueueFinal(n: Notifier, item: Item, id: nat)
    requires id in n.results && item.id != id && Count(Items(n.queue), id) == 0
    ensures id in Enqueue(n, item).results && Enqueue(n, item).results[id] == n.results[id]
  {
    if Items(n.queue) != [] {
      CountFirst(Items(n.queue), id);
    }
  }

  lemma {:induction false} FailAllFinal(results: map<nat, bool>, items: seq<Item>, id: nat)
    requires id in results && Count(items, id) == 0
    ensures id in FailAll(results, items) && FailAll(results, items)[id] == results[id]
  {
    if items != [] {
      FailAllFinal(results, items[..|items| - 1], id);
    }
  }

  // ---------- closing ----------

  /** `start` is not called while a close is still draining a queue with items in it. */
  predicate StartsCleanly(n: Notifier, step: Step) {
    step == Start ==> !(n.closed && Items(n.queue) != [])
  }

  /** That is the only way a queue with items is ever replaced. */
  lemma LostOnlyByEarlyStart(n: Notifier, step: Step)
    requires Shape(n) && Enabled(n, step)
    ensures Effect(n, step).lost == n.lost <==> StartsCleanly(n, step)
  {
    assert n.lost + [] == n.lost;
    assert Items(n.queue) != [] ==> |n.lost + Items(n.queue)| > |n.lost|;
  }

  predicate CleanRun(n: Notifier, steps: seq<Step>)
    requires ValidRun(n, steps)
  {
    steps == []
    || (CleanRun(n, steps[..|steps| - 1]) && StartsCleanly(Run(n, steps[..|steps| - 1]), steps[|steps| - 1]))
  }

  lemma {:induction false} LosesNothingIff(n: Notifier, steps: seq<Step>)
    requires Shape(n) && OnePlace(n) && n.lost == [] && ValidRun(n, steps)
    ensures Run(n, steps).lost == [] <==> CleanRun(n, steps)
  {
    hide Shape, OnePlace, Effect, Enabled, StartsCleanly;
    if steps != [] {
      var before := steps[..|steps| - 1];
      LosesNothingIff(n, before);
      RunKeeps(n, before);
      LostOnlyByEarlyStart(Run(n, before), steps[|steps| - 1]);
      LostForever(Run(n, before), steps[|steps| - 1]);
    }
  }

  /** Once every close has finished, the unresolved notifications are those of replaced queues. */
  lemma UnresolvedAreLost(n: Notifier)
    requires OnePlace(n) && Shape(n) && n.closed && n.closers == []
    ensures (forall id :: id in n.accepted ==> id in n.results) <==> n.lost == []
  {
    forall id
      ensures Count(n.lost, id) + (if id in n.results then 1 else 0) == if id in n.accepted then 1 else 0
    {
      assert Places(n, id) == if id in n.accepted then 1 else 0;
    }
    if n.lost != [] {
      CountFirst(n.lost, n.lost[0].id);
      assert n.lost[0].id in n.accepted && n.lost[0].id !in n.results;
    }
  }

  /** After the closes have finished, nobody is left waiting exactly when `start` was never called
      while a close was still draining a queue with items. */
  lemma ClosedResolvesAllIff(queueSize: int, maxRetries: int, steps: seq<Step>)
    requires ValidRun(New(queueSize, maxRetries), steps)
    requires var n := Run(New(queueSize, maxRetries), steps); n.closed && n.closers == []
    ensures var n := Run(New(queueSize, maxRetries), steps);
      (forall id :: id in n.accepted ==> id in n.results) <==> CleanRun(New(queueSize, maxRetries), steps)
  {
    RunKeeps(New(queueSize, maxRetries), steps);
    LosesNothingIff(New(queueSize, maxRetries), steps);
    UnresolvedAreLost(Run(New(queueSize, maxRetries), steps));
  }

  /** Close leaves nobody waiting, as long as `start` does not cut into a close. */
  lemma CloseResolvesAll(queueSize: int, maxRetries: int, steps: seq<Step>, id: nat)
    requires ValidRun(New(queueSize, maxRetries), steps) && CleanRun(New(queueSize, maxRetries), steps)
    requires var n := Run(New(queueSize, maxRetries), steps); n.closed && n.closers == [] && id in n.accepted
    ensures id in Run(New(queueSize, maxRetries), steps).results
  {
    ClosedResolvesAllIff(queueSize, maxRetries, steps);
  }

  /** A start that cuts into a close leaves the old queue's notification unresolved for good. */
  lemma EarlyStartLoses(queueSize: int, maxRetries: int) returns (steps: seq<Step>)
    ensures ValidRun(New(queueSize, maxRetries), steps) && Run(New(queueSize, maxRetries), steps).lost == [Item(7, 0)]
  {
    var n := New(queueSize, maxRetries);
    assert [] + [Item(7, 0)] == [Item(7, 0)];
    Extend(n, [], Send(7));
    Extend(n, [Send(7)], CloseBegin);
    Extend(n, [Send(7), CloseBegin], Start);
    steps := [Send(7), CloseBegin, Start];
  }

  lemma Extend(n: Notifier, steps: seq<Step>, step: Step)
    requires ValidRun(n, steps) && Enabled(Run(n, steps), step)
    ensures ValidRun(n, steps + [step]) && Run(n, steps + [step]) == Effect(Run(n, steps), step)
  {
    hide Enabled, Effect;
    assert (steps + [step])[..|steps|] == steps;
  }

  /** Items of a replaced queue stay lost. */
  lemma LostForever(n: Notifier, step: Step)
    requires Enabled(n, step)
    ensures n.lost <= Effect(n, step).lost
  {
  }

  // ---------- posts ----------

  function Limit(maxRetries: int): int {
    if maxRetries < 1 then 1 else maxRetries
  }

  /** A waiting notification has been posted once for each counted attempt, and may be posted again. */
  predicate ItemOk(n: Notifier, item: Item) {
    Posts(n, item.id) == item.attempts && item.attempts < Limit(n.maxRetries)
  }

  ghost predicate PostsOk(n: Notifier) {
    && (forall item :: item in Items(n.queue) ==> ItemOk(n, item))
    && (forall item :: item in InWorker(n.worker) ==> ItemOk(n, item))
    && (forall id :: Posts(n, id) <= Limit(n.maxRetries) && (id !in n.accepted ==> Posts(n, id) == 0))
  }

  lemma {:induction false} CountMember(items: seq<Item>, item: Item)
    requires item in items
    ensures Count(items, item.id) >= 1
  {
    if item != items[|items| - 1] {
      CountMember(items[..|items| - 1], item);
    }
  }

  lemma DeliverKeepsPosts(n: Notifier, reply: Reply)
    requires OnePlace(n) && PostsOk(n) && Enabled(n, Deliver(reply))
    ensures PostsOk(Effect(n, Deliver(reply)))
  {
    var item, t := n.worker.value.item, Effect(n, Deliver(reply));
    WorkerHasPlace(n, item);
    CountOne(item, item.id);
    assert Places(n, item.id) == if item.id in n.accepted then 1 else 0;
    assert item in InWorker(n.worker);
    forall other | other in Items(n.queue)
      ensures ItemOk(t, other)
    {
      CountMember(Items(n.queue), other);
      assert ItemOk(n, other);
    }
    assert forall id :: Posts(t, id) == Posts(n, id) + (if id == item.id then 1 else 0);
  }

  lemma StepKeepsPosts(n: Notifier, step: Step)
    requires OnePlace(n) && PostsOk(n) && Enabled(n, step)
    ensures PostsOk(Effect(n, step)) && Effect(n, step).maxRetries == n.maxRetries
  {
    hide OnePlace;
    if step.Deliver? {
      DeliverKeepsPosts(n, step.reply);
    } else {
      var t := Effect(n, step);
      assert t.posts == n.posts && t.maxRetries == n.maxRetries && n.accepted <= t.accepted;
      forall item | item in Items(t.queue)
        ensures ItemOk(t, item)
      {
        if item !in Items(n.queue) && item !in InWorker(n.worker) {
          assert step.Send? && item == Item(step.id, 0) && Posts(n, step.id) == 0;
        } else {
          assert ItemOk(n, item);
        }
      }
      forall item | item in InWorker(t.worker)
        ensures ItemOk(t, item)
      {
        assert ItemOk(n, item);
      }
      assert forall id :: Posts(t, id) == Posts(n, id);
    }
  }

  lemma {:induction false} RunKeepsPosts(n: Notifier, steps: seq<Step>)
    requires OnePlace(n) && Shape(n) && PostsOk(n) && ValidRun(n, steps)
    ensures PostsOk(Run(n, steps)) && Run(n, steps).maxRetries == n.maxRetries
  {
    hide OnePlace, Shape, PostsOk, Effect, Enabled;
    if steps != [] {
      RunKeepsPosts(n, steps[..|steps| - 1]);
      RunKeeps(n, steps[..|steps| - 1]);
      StepKeepsPosts(Run(n, steps[..|steps| - 1]), steps[|steps| - 1]);
    }
  }

  /** No notification is ever posted more often than the retry limit allows. */
  lemma PostsBounded(queueSize: int, maxRetries: int, steps: seq<Step>, id: nat)
    requires ValidRun(New(queueSize, maxRetries), steps)
    ensures Posts(Run(New(queueSize, maxRetries), steps), id) <= Limit(maxRetries)
  {
    RunKeepsPosts(New(queueSize, maxRetries), steps);
  }
}

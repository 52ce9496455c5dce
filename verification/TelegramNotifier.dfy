/** The notifier object: each method is the code between two awaits of `send`, the worker or
    `close`, proved equal to its step of the queue protocol. */
module TelegramNotifier {
  import opened Prelude
  import opened Notifications

  class Telegram {
    const queueSize: int
    const maxRetries: int
    var queue: Option<seq<Item>>
    var worker: Option<Worker>
    var closers: seq<Option<Worker>>
    var closed: bool
    ghost var lost: seq<Item>
    ghost var accepted: set<nat>
    var results: map<nat, bool>
    ghost var posts: map<nat, nat>

    ghost function State(): Notifier
      reads this
    {
      Notifier(queueSize, maxRetries, queue, worker, closers, closed, lost, accepted, results, posts)
    }

    constructor (queueSize: int, maxRetries: int)
      ensures State() == New(queueSize, maxRetries)
    {
      this.queueSize, this.maxRetries := queueSize, maxRetries;
      queue, worker, closers, closed := None, None, [], false;
      lost, accepted, results, posts := [], {}, map[], map[];
    }

    /** Setting a future twice would raise; the precondition says it never happens. */
    method SetResult(id: nat, result: bool)
      requires id !in results
      modifies this`results
      ensures State() == Resolve(old(State()), id, result)
    {
      results := results[id := result];
    }

    method StartWorker()
      modifies this
      ensures State() == Started(old(State()))
    {
      if worker.Some? {
        return;
      }
      lost := lost + Items(queue);
      closed := false;
      queue := Some([]);
      worker := Some(Idle);
    }

    method EnqueueItem(item: Item)
      requires queue.None? ==> item.id !in results
      requires Items(queue) != [] ==> Items(queue)[0].id !in results
      modifies this`queue, this`results
      ensures State() == Enqueue(old(State()), item)
    {
      if queue.None? {
        SetResult(item.id, false);
        return;
      }
      var q := queue.value;
      if queueSize > 0 && |q| >= queueSize {
        SetResult(q[0].id, false);
        queue := Some(q[1..] + [item]);
      } else {
        queue := Some(q + [item]);
      }
    }

    /** The synchronous part of `send`; a closed notifier refuses. */
    method SendItem(id: nat) returns (refused: bool)
      requires OnePlace(State()) && id !in accepted
      modifies this
      ensures refused == old(closed)
      ensures State() == Effect(old(State()), Send(id))
    {
      if closed {
        return true;
      }
      QueuedIsUnresolved(State());
      NewIsUnresolved(State(), id);
      if worker.None? {
        StartWorker();
      }
      accepted := accepted + {id};
      EnqueueItem(Item(id, 0));
      return false;
    }

    method WorkerTakes()
      requires Enabled(State(), Take)
      modifies this`queue, this`worker
      ensures State() == Effect(old(State()), Take)
    {
      var item := queue.value[0];
      queue := Some(queue.value[1..]);
      worker := Some(Sending(item));
    }

    /** The outcome of one POST. */
    method WorkerDelivers(reply: Reply)
      requires OnePlace(State()) && Enabled(State(), Deliver(reply))
      modifies this
      ensures State() == Effect(old(State()), Deliver(reply))
    {
      var item := worker.value.item;
      WorkerIsUnresolved(State(), item);
      posts := posts[item.id := Posts(State(), item.id) + 1];
      match reply {
        case Sent =>
          SetResult(item.id, true);
          worker := Some(Idle);
        case Failed =>
          SetResult(item.id, false);
          worker := Some(Idle);
        case RateLimited =>
          var counted := item.(attempts := item.attempts + 1);
          if counted.attempts >= maxRetries {
            SetResult(item.id, false);
            worker := Some(Idle);
          } else {
            worker := Some(Cooling(counted));
          }
      }
    }

    /** The cooldown has passed: queue the notification again. */
    method WorkerRequeues()
      requires OnePlace(State()) && Enabled(State(), Requeue)
      modifies this
      ensures State() == Effect(old(State()), Requeue)
    {
      var item := worker.value.item;
      QueuedIsUnresolved(State());
      WorkerIsUnresolved(State(), item);
      worker := Some(Idle);
      EnqueueItem(item);
    }

    /** `close` up to its await; without a worker to wait for it runs to its end. */
    method BeginClose()
      modifies this
      ensures State() == Effect(old(State()), CloseBegin)
    {
      closed := true;
      if worker.None? {
        DrainQueue();
      } else {
        closers, worker := closers + [worker], None;
      }
    }

    /** A cancelled worker fails the notification it was busy with. */
    method WorkerCancelled(k: nat)
      requires Enabled(State(), Cancelled(k))
      modifies this
      ensures State() == Effect(old(State()), Cancelled(k))
    {
      var task := closers[k].value;
      if !task.Idle? {
        FailOne(results, task.item);
        results := results[task.item.id := false];
      }
      closers := closers[k := None];
    }

    /** The rest of a `close` whose worker has unwound. */
    method EndClose(k: nat)
      requires Enabled(State(), CloseEnd(k))
      modifies this
      ensures State() == Effect(old(State()), CloseEnd(k))
    {
      closers := closers[..k] + closers[k + 1..];
      DrainQueue();
    }

    /** Fail whatever was never sent. */
    method DrainQueue()
      modifies this`results, this`queue
      ensures State() == Drained(old(State()))
    {
      var items := Items(queue);
      ghost var before := results;
      for k := 0 to |items|
        invariant results == FailAll(before, items[..k])
        invariant State() == old(State()).(results := results)
      {
        assert items[..k + 1][..k] == items[..k];
        results := results[items[k].id := false];
      }
      assert items[..|items|] == items;
      queue := None;
    }
  }

  lemma FailOne(results: map<nat, bool>, item: Item)
    ensures FailAll(results, [item]) == results[item.id := false]
  {
    assert [item][..0] == [];
  }

  lemma QueuedIsUnresolved(n: Notifier)
    requires OnePlace(n)
    ensures Items(n.queue) != [] ==> Items(n.queue)[0].id !in n.results
  {
    if Items(n.queue) != [] {
      FirstHasPlace(n);
      CountFirst(Items(n.queue), Items(n.queue)[0].id);
    }
  }

  lemma WorkerIsUnresolved(n: Notifier, item: Item)
    requires OnePlace(n) && InWorker(n.worker) == [item]
    ensures item.id !in n.results
  {
    WorkerHasPlace(n, item);
    CountOne(item, item.id);
  }

  lemma NewIsUnresolved(n: Notifier, id: nat)
    requires OnePlace(n) && id !in n.accepted
    ensures id !in n.results
  {
    assert Places(n, id) == 0;
  }
}

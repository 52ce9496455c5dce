/** The critical section of `_on_signal_approved` across threads and processes
    (services/execution/service.py): an in-process lock around a transaction that first takes the
    guard row. A worker is one approved signal; the steps of all workers interleave freely. */
module PositionGuard {
  import opened Prelude

  datatype Outcome = Opened | Rejected | Exhausted

  /** Where a worker stands; `attempt` counts its transactions, `inserted` says whether it is the
      one that inserted the guard row. */
  datatype Phase =
    | Ready
    | Locked(attempt: nat)
    | Inserting(attempt: nat)
    | Guarded(attempt: nat, inserted: bool)
    | Ordered(attempt: nat, inserted: bool)
    | Stored(attempt: nat, inserted: bool)
    | Refused(attempt: nat, inserted: bool)
    | Done(outcome: Outcome)

  /** `storable` says whether the trade row of the signal meets the schema's constraints. */
  datatype Worker = Worker(process: nat, storable: bool, phase: Phase, orders: nat)

  /** `open` counts committed OPEN rows, `guardRow` the committed guard row; `holder` has it locked
      or inserted but not committed. */
  datatype State = State(workers: seq<Worker>, open: nat, guardRow: bool, holder: Option<nat>)

  /** `rowLocks`: the database honours SELECT ... FOR UPDATE. `maxOpen == 0` means no limit. */
  datatype Config = Config(maxOpen: nat, rowLocks: bool)

  datatype Step =
    | Acquire(w: nat)
    | Read(w: nat)
    | Insert(w: nat)
    | Check(w: nat, filled: bool)
    | Store(w: nat)
    | Commit(w: nat)
    | CloseOne

  predicate InSection(p: Phase) {
    !p.Ready? && !p.Done?
  }

  predicate InGuard(p: Phase) {
    p.Guarded? || p.Ordered? || p.Stored? || p.Refused?
  }

  predicate LockFree(s: State, process: nat) {
    forall v :: 0 <= v < |s.workers| && s.workers[v].process == process ==> !InSection(s.workers[v].phase)
  }

  predicate Enabled(cfg: Config, s: State, step: Step) {
    if step.CloseOne? then s.open > 0
    else
      && step.w < |s.workers|
      && var p := s.workers[step.w].phase;
         match step
         case Acquire(w) => p.Ready? && LockFree(s, s.workers[w].process)
         case Read(_) => p.Locked? && (s.guardRow && cfg.rowLocks ==> s.holder.None?)
         case Insert(_) => p.Inserting? && s.holder.None?
         case Check(_, _) => p.Guarded?
         case Store(_) => p.Ordered?
         case Commit(_) => p.Stored? || p.Refused?
  }

  function At(s: State, w: nat, p: Phase): State
    requires w < |s.workers|
  {
    s.(workers := s.workers[w := s.workers[w].(phase := p)])
  }

  /** A rolled-back transaction is tried once more, inside the same lock. */
  function Retry(attempt: nat): Phase {
    if attempt == 0 then Locked(1) else Done(Exhausted)
  }

  function Release(s: State, w: nat): State {
    if s.holder == Some(w) then s.(holder := None) else s
  }

  function Effect(cfg: Config, s: State, step: Step): State
    requires Enabled(cfg, s, step)
  {
    match step
    case CloseOne => s.(open := s.open - 1)
    case Acquire(w) => At(s, w, Locked(0))
    case Read(w) =>
      var a := s.workers[w].phase.attempt;
      if !s.guardRow then At(s, w, Inserting(a))
      else At(if cfg.rowLocks then s.(holder := Some(w)) else s, w, Guarded(a, false))
    case Insert(w) =>
      var a := s.workers[w].phase.attempt;
      if s.guardRow then At(s, w, Retry(a)) else At(s.(holder := Some(w)), w, Guarded(a, true))
    case Check(w, filled) =>
      var p := s.workers[w].phase;
      if (cfg.maxOpen > 0 && s.open >= cfg.maxOpen) || !filled then At(s, w, Refused(p.attempt, p.inserted))
      else
        s.(workers := s.workers[w := s.workers[w].(phase := Ordered(p.attempt, p.inserted), orders := s.workers[w].orders + 1)])
    case Store(w) =>
      var p := s.workers[w].phase;
      if s.workers[w].storable then At(s, w, Stored(p.attempt, p.inserted))
      else At(Release(s, w), w, Retry(p.attempt))
    case Commit(w) =>
      var p := s.workers[w].phase;
      At(Release(s, w), w, Done(if p.Stored? then Opened else Rejected))
      .(open := if p.Stored? then s.open + 1 else s.open, guardRow := s.guardRow || p.inserted)
  }

  predicate ValidRun(cfg: Config, s: State, steps: seq<Step>)
    decreases |steps|, 0
  {
    steps == []
    || (ValidRun(cfg, s, steps[..|steps| - 1])
        && Enabled(cfg, Run(cfg, s, steps[..|steps| - 1]), steps[|steps| - 1]))
  }

  function Run(cfg: Config, s: State, steps: seq<Step>): State
    requires ValidRun(cfg, s, steps)
    decreases |steps|, 1
  {
    if steps == [] then s else Effect(cfg, Run(cfg, s, steps[..|steps| - 1]), steps[|steps| - 1])
  }

  /** No signal has been handled yet, and the cap holds. */
  ghost predicate Initial(cfg: Config, s: State) {
    && s.holder == None
    && (forall w :: 0 <= w < |s.workers| ==> s.workers[w].phase == Ready && s.workers[w].orders == 0)
    && (cfg.maxOpen > 0 ==> s.open <= cfg.maxOpen)
  }

  // ---------- the invariant ----------

  /** Two signals whose rows can be stored never race: the guard row excludes them, or they share
      the process lock. */
  ghost predicate Serialised(cfg: Config, workers: seq<Worker>) {
    cfg.rowLocks
    || forall w, v :: 0 <= w < |workers| && 0 <= v < |workers| && workers[w].storable && workers[v].storable ==>
         workers[w].process == workers[v].process
  }

  predicate Passed(w: Worker) {
    w.storable && (w.phase.Ordered? || w.phase.Stored?)
  }

  /** At most one worker of a process is inside its lock. */
  ghost predicate SectionsExclusive(workers: seq<Worker>) {
    forall w, v | 0 <= w < |workers| && 0 <= v < |workers| && InSection(workers[w].phase) && InSection(workers[v].phase) ::
      workers[w].process == workers[v].process ==> w == v
  }

  /** With row locks, whoever is past the guard row holds it. */
  ghost predicate GuardHeld(cfg: Config, s: State) {
    cfg.rowLocks ==> forall w :: 0 <= w < |s.workers| && InGuard(s.workers[w].phase) ==> s.holder == Some(w)
  }

  /** The cap holds, with room for the worker that has passed the count check. */
  ghost predicate CapKept(cfg: Config, s: State) {
    cfg.maxOpen > 0 ==>
      && s.open <= cfg.maxOpen
      && forall w :: 0 <= w < |s.workers| && Passed(s.workers[w]) ==> s.open < cfg.maxOpen
  }

  ghost predicate StoredIsStorable(workers: seq<Worker>) {
    forall w :: 0 <= w < |workers| && workers[w].phase.Stored? ==> workers[w].storable
  }

  ghost predicate Inv(cfg: Config, s: State) {
    && Serialised(cfg, s.workers)
    && SectionsExclusive(s.workers)
    && GuardHeld(cfg, s)
    && StoredIsStorable(s.workers)
    && CapKept(cfg, s)
  }

  lemma PassedAlone(cfg: Config, s: State, w: nat, v: nat)
    requires Inv(cfg, s) && w < |s.workers| && v < |s.workers| && s.workers[w].storable
    requires InGuard(s.workers[w].phase) && Passed(s.workers[v])
    ensures w == v
  {
  }

  lemma StepKeepsSections(cfg: Config, s: State, step: Step)
    requires Inv(cfg, s) && Enabled(cfg, s, step)
    ensures SectionsExclusive(Effect(cfg, s, step).workers)
  {
    hide Serialised, GuardHeld, StoredIsStorable, CapKept;
  }

  lemma StepKeepsGuard(cfg: Config, s: State, step: Step)
    requires Inv(cfg, s) && Enabled(cfg, s, step)
    ensures GuardHeld(cfg, Effect(cfg, s, step))
  {
    hide Serialised, SectionsExclusive, StoredIsStorable, CapKept;
  }

  lemma StepKeepsStorable(cfg: Config, s: State, step: Step)
    requires Inv(cfg, s) && Enabled(cfg, s, step)
    ensures Serialised(cfg, Effect(cfg, s, step).workers) && StoredIsStorable(Effect(cfg, s, step).workers)
  {
    hide SectionsExclusive, GuardHeld, CapKept;
  }

  lemma StepKeepsCap(cfg: Config, s: State, step: Step)
    requires Inv(cfg, s) && Enabled(cfg, s, step)
    ensures CapKept(cfg, Effect(cfg, s, step))
  {
    var t := Effect(cfg, s, step);
    if cfg.maxOpen > 0 {
      if step.Commit? && s.workers[step.w].phase.Stored? {
        assert Passed(s.workers[step.w]);
      }
      forall w | 0 <= w < |t.workers| && Passed(t.workers[w])
        ensures t.open < cfg.maxOpen
      {
        if step.Commit? && w != step.w {
          assert Passed(s.workers[w]);
          if s.workers[step.w].phase.Stored? {
            PassedAlone(cfg, s, step.w, w);
          }
        }
      }
    }
  }

  lemma {:induction false} RunKeeps(cfg: Config, s: State, steps: seq<Step>)
    requires Inv(cfg, s) && ValidRun(cfg, s, steps)
    ensures Inv(cfg, Run(cfg, s, steps))
  {
    hide Inv, Effect, Enabled;
    if steps != [] {
      RunKeeps(cfg, s, steps[..|steps| - 1]);
      var t, step := Run(cfg, s, steps[..|steps| - 1]), steps[|steps| - 1];
      StepKeepsSections(cfg, t, step);
      StepKeepsGuard(cfg, t, step);
      StepKeepsStorable(cfg, t, step);
      StepKeepsCap(cfg, t, step);
      InvIs(cfg, Run(cfg, s, steps));
    }
  }

  lemma InvIs(cfg: Config, s: State)
    requires Serialised(cfg, s.workers) && SectionsExclusive(s.workers) && GuardHeld(cfg, s)
    requires StoredIsStorable(s.workers) && CapKept(cfg, s)
    ensures Inv(cfg, s)
  {
  }

  /** The cap over any interleaving of any number of workers. */
  lemma CapHolds(cfg: Config, s: State, steps: seq<Step>)
    requires cfg.maxOpen > 0 && Initial(cfg, s) && Serialised(cfg, s.workers) && ValidRun(cfg, s, steps)
    ensures Run(cfg, s, steps).open <= cfg.maxOpen
  {
    RunKeeps(cfg, s, steps);
  }

  // ---------- the cap needs the serialisation ----------

  lemma Extend(cfg: Config, s: State, steps: seq<Step>, step: Step)
    requires ValidRun(cfg, s, steps) && Enabled(cfg, Run(cfg, s, steps), step)
    ensures ValidRun(cfg, s, steps + [step]) && Run(cfg, s, steps + [step]) == Effect(cfg, Run(cfg, s, steps), step)
  {
    hide Enabled, Effect;
    assert (steps + [step])[..|steps|] == steps;
  }

  /** Both workers count before either stores its row; the rows are written one after the other. */
  lemma RaceBreaksCap(cfg: Config, s: State, i: nat, j: nat) returns (steps: seq<Step>)
    requires cfg.maxOpen > 0 && !cfg.rowLocks && Initial(cfg, s) && s.guardRow && s.open == cfg.maxOpen - 1
    requires i < |s.workers| && j < |s.workers| && s.workers[i].storable && s.workers[j].storable
    requires s.workers[i].process != s.workers[j].process
    ensures ValidRun(cfg, s, steps) && Run(cfg, s, steps).open == cfg.maxOpen + 1
  {
    steps := [];
    var todo := [Acquire(i), Acquire(j), Read(i), Read(j), Check(i, true), Check(j, true), Store(i), Commit(i), Store(j), Commit(j)];
    var t := s;
    assert ValidRun(cfg, s, []) && Run(cfg, s, []) == s;
    hide ValidRun, Run;
    for k := 0 to |todo|
      invariant ValidRun(cfg, s, steps) && Run(cfg, s, steps) == t
      invariant |t.workers| == |s.workers| && t.guardRow && t.holder == None
      invariant forall v :: 0 <= v < |s.workers| && v != i && v != j ==> t.workers[v] == s.workers[v]
      invariant t.workers[i] == s.workers[i].(phase := PhaseAfter(k, 0), orders := if k > 4 then 1 else 0)
      invariant t.workers[j] == s.workers[j].(phase := PhaseAfter(k, 1), orders := if k > 5 then 1 else 0)
      invariant t.open == if k <= 7 then cfg.maxOpen - 1 else if k <= 9 then cfg.maxOpen else cfg.maxOpen + 1
    {
      Extend(cfg, s, steps, todo[k]);
      t := Effect(cfg, t, todo[k]);
      steps := steps + [todo[k]];
    }
  }

  /** The phase of the first (0) or second (1) racer after `k` steps of the race. */
  function PhaseAfter(k: nat, racer: nat): Phase {
    if k <= racer then Ready
    else if k <= 2 + racer then Locked(0)
    else if k <= 4 + racer then Guarded(0, false)
    else if k <= 6 + 2 * racer then Ordered(0, false)
    else if k <= 7 + 2 * racer then Stored(0, false)
    else Done(Opened)
  }

  /** For a given set of signals the cap holds over every interleaving from every initial state
      exactly when they are serialised: by the guard row, or by sharing one process. */
  lemma CapIff(cfg: Config, workers: seq<Worker>)
    requires cfg.maxOpen > 0 && forall w :: 0 <= w < |workers| ==> workers[w].phase == Ready && workers[w].orders == 0
    ensures (forall s: State, steps: seq<Step> | s.workers == workers && Initial(cfg, s) && ValidRun(cfg, s, steps) ::
               Run(cfg, s, steps).open <= cfg.maxOpen)
            <==> Serialised(cfg, workers)
  {
    if Serialised(cfg, workers) {
      forall s: State, steps: seq<Step> | s.workers == workers && Initial(cfg, s) && ValidRun(cfg, s, steps)
        ensures Run(cfg, s, steps).open <= cfg.maxOpen
      {
        CapHolds(cfg, s, steps);
      }
    } else {
      var i, j :| 0 <= i < |workers| && 0 <= j < |workers| && workers[i].storable && workers[j].storable
                  && workers[i].process != workers[j].process;
      var s := State(workers, cfg.maxOpen - 1, true, None);
      var steps := RaceBreaksCap(cfg, s, i, j);
      assert Initial(cfg, s) && ValidRun(cfg, s, steps);
    }
  }

  // ---------- attempts and orders ----------

  /** What one worker's steps keep: a storable signal retries only once the guard row is committed,
      and sends its one order on the way to its commit. */
  predicate WorkerOk(w: Worker, guardRow: bool) {
    w.storable ==>
      match w.phase
      case Ready => w.orders == 0
      case Locked(a) => w.orders == 0 && a <= 1 && (a == 1 ==> guardRow)
      case Inserting(a) => w.orders == 0 && a == 0
      case Guarded(a, _) => w.orders == 0 && a <= 1
      case Refused(a, _) => w.orders == 0 && a <= 1
      case Ordered(a, _) => w.orders == 1 && a <= 1
      case Stored(a, _) => w.orders == 1 && a <= 1
      case Done(o) => o != Exhausted && (w.orders == if o == Opened then 1 else 0)
  }

  ghost predicate AllOk(s: State) {
    forall w :: 0 <= w < |s.workers| ==> WorkerOk(s.workers[w], s.guardRow)
  }

  lemma {:induction false} RunKeepsWorkers(cfg: Config, s: State, steps: seq<Step>)
    requires AllOk(s) && ValidRun(cfg, s, steps)
    ensures AllOk(Run(cfg, s, steps)) && |Run(cfg, s, steps).workers| == |s.workers|
    ensures forall w :: 0 <= w < |s.workers| ==> Run(cfg, s, steps).workers[w].storable == s.workers[w].storable
  {
    if steps != [] {
      RunKeepsWorkers(cfg, s, steps[..|steps| - 1]);
      StepKeepsWorkers(cfg, Run(cfg, s, steps[..|steps| - 1]), steps[|steps| - 1]);
    }
  }

  lemma StepKeepsWorkers(cfg: Config, s: State, step: Step)
    requires AllOk(s) && Enabled(cfg, s, step)
    ensures var t := Effect(cfg, s, step);
      AllOk(t) && |t.workers| == |s.workers| && forall w :: 0 <= w < |s.workers| ==> t.workers[w].storable == s.workers[w].storable
  {
  }

  /** A signal whose row can be stored sends at most one order, and exactly one if it opened a trade;
      its two attempts always suffice, because the guard row is never deleted. */
  lemma OneOrderPerSignal(cfg: Config, s: State, steps: seq<Step>, w: nat)
    requires Initial(cfg, s) && ValidRun(cfg, s, steps) && w < |s.workers| && s.workers[w].storable
    ensures var t := Run(cfg, s, steps);
      && |t.workers| == |s.workers|
      && t.workers[w].orders <= 1
      && t.workers[w].phase != Done(Exhausted)
      && (t.workers[w].phase == Done(Opened) ==> t.workers[w].orders == 1)
      && (t.workers[w].phase == Done(Rejected) ==> t.workers[w].orders == 0)
  {
    RunKeepsWorkers(cfg, s, steps);
    assert WorkerOk(Run(cfg, s, steps).workers[w], Run(cfg, s, steps).guardRow);
  }

  /** One transaction of a signal whose row cannot be stored, undisturbed: it sends an order and is
      rolled back. */
  lemma OrdersInVain(cfg: Config, s: State, steps: seq<Step>, w: nat, a: nat) returns (more: seq<Step>)
    requires ValidRun(cfg, s, steps)
    requires var t := Run(cfg, s, steps);
      && w < |t.workers| && !t.workers[w].storable && t.workers[w].phase == Locked(a)
      && t.holder == None && (cfg.maxOpen > 0 ==> t.open < cfg.maxOpen)
    ensures ValidRun(cfg, s, more)
    ensures var t := Run(cfg, s, steps);
      Run(cfg, s, more) == t.(workers := t.workers[w := t.workers[w].(phase := Retry(a), orders := t.workers[w].orders + 1)])
  {
    var t := Run(cfg, s, steps);
    var todo := if t.guardRow then [Read(w), Check(w, true), Store(w)] else [Read(w), Insert(w), Check(w, true), Store(w)];
    more := steps;
    hide ValidRun, Run;
    ghost var now := t;
    for k := 0 to |todo|
      invariant ValidRun(cfg, s, more) && Run(cfg, s, more) == now
      invariant |now.workers| == |t.workers| && now == t.(workers := t.workers[w := now.workers[w]], holder := now.holder)
      invariant now.workers[w] == t.workers[w].(phase := VainPhase(k, a, t.guardRow), orders := now.workers[w].orders)
      invariant now.workers[w].orders == t.workers[w].orders + if k + 1 >= |todo| then 1 else 0
      invariant now.holder == if InGuard(now.workers[w].phase) && (cfg.rowLocks || !t.guardRow) then Some(w) else None
    {
      Extend(cfg, s, more, todo[k]);
      now := Effect(cfg, now, todo[k]);
      more := more + [todo[k]];
    }
  }

  function VainPhase(k: nat, a: nat, guardRow: bool): Phase {
    if k == 0 then Locked(a)
    else if guardRow then if k == 1 then Guarded(a, false) else if k == 2 then Ordered(a, false) else Retry(a)
    else if k == 1 then Inserting(a)
    else if k == 2 then Guarded(a, true)
    else if k == 3 then Ordered(a, true)
    else Retry(a)
  }

  /** From every initial state a signal whose row cannot be stored can send two orders and record
      neither. */
  lemma UnstorableOrdersTwice(cfg: Config, s: State, w: nat) returns (steps: seq<Step>)
    requires Initial(cfg, s) && w < |s.workers| && !s.workers[w].storable
    ensures ValidRun(cfg, s, steps) && |Run(cfg, s, steps).workers| == |s.workers|
    ensures Run(cfg, s, steps).workers[w].orders == 2 && Run(cfg, s, steps).workers[w].phase == Done(Exhausted)
    ensures Run(cfg, s, steps).open <= s.open
  {
    steps := [];
    assert ValidRun(cfg, s, []) && Run(cfg, s, []) == s;
    hide ValidRun, Run;
    if cfg.maxOpen > 0 && s.open == cfg.maxOpen {
      Extend(cfg, s, [], CloseOne);
      steps := [] + [CloseOne];
    }
    Extend(cfg, s, steps, Acquire(w));
    steps := OrdersInVain(cfg, s, steps + [Acquire(w)], w, 0);
    steps := OrdersInVain(cfg, s, steps, w, 1);
  }

  /** From every initial state a signal can never send a second order exactly when its row can be
      stored. */
  lemma OneOrderIffStorable(cfg: Config, s: State, w: nat)
    requires Initial(cfg, s) && w < |s.workers|
    ensures (forall steps: seq<Step> | ValidRun(cfg, s, steps) ::
               |Run(cfg, s, steps).workers| == |s.workers| && Run(cfg, s, steps).workers[w].orders <= 1)
            <==> s.workers[w].storable
  {
    if s.workers[w].storable {
      forall steps: seq<Step> | ValidRun(cfg, s, steps)
        ensures |Run(cfg, s, steps).workers| == |s.workers| && Run(cfg, s, steps).workers[w].orders <= 1
      {
        OneOrderPerSignal(cfg, s, steps, w);
      }
    } else {
      var steps := UnstorableOrdersTwice(cfg, s, w);
      assert ValidRun(cfg, s, steps);
    }
  }

  // ---------- no deadlock ----------

  /** Whoever holds the guard row is past it. */
  ghost predicate HolderInGuard(s: State) {
    s.holder.Some? ==> s.holder.value < |s.workers| && InGuard(s.workers[s.holder.value].phase)
  }

  lemma StepKeepsHolder(cfg: Config, s: State, step: Step)
    requires HolderInGuard(s) && Enabled(cfg, s, step)
    ensures HolderInGuard(Effect(cfg, s, step))
  {
  }

  lemma {:induction false} RunKeepsHolder(cfg: Config, s: State, steps: seq<Step>)
    requires HolderInGuard(s) && ValidRun(cfg, s, steps)
    ensures HolderInGuard(Run(cfg, s, steps))
  {
    hide HolderInGuard, Effect, Enabled;
    if steps != [] {
      RunKeepsHolder(cfg, s, steps[..|steps| - 1]);
      StepKeepsHolder(cfg, Run(cfg, s, steps[..|steps| - 1]), steps[|steps| - 1]);
    }
  }

  /** Locks never wait in a circle: while some signal is unfinished, some worker can step. */
  lemma NoDeadlock(cfg: Config, s: State, steps: seq<Step>, w: nat) returns (step: Step)
    requires Initial(cfg, s) && ValidRun(cfg, s, steps) && w < |Run(cfg, s, steps).workers|
    requires !Run(cfg, s, steps).workers[w].phase.Done?
    ensures Enabled(cfg, Run(cfg, s, steps), step) && !step.CloseOne?
  {
    RunKeepsHolder(cfg, s, steps);
    var t := Run(cfg, s, steps);
    hide Run, ValidRun;
    if t.holder.Some? {
      step := StepInGuard(cfg, t, t.holder.value);
    } else if v :| 0 <= v < |t.workers| && InSection(t.workers[v].phase) {
      var p := t.workers[v].phase;
      step := if p.Locked? then Read(v) else if p.Inserting? then Insert(v)
              else if p.Guarded? then Check(v, true) else if p.Ordered? then Store(v) else Commit(v);
    } else {
      step := Acquire(w);
    }
  }

  lemma StepInGuard(cfg: Config, s: State, v: nat) returns (step: Step)
    requires v < |s.workers| && InGuard(s.workers[v].phase)
    ensures Enabled(cfg, s, step) && !step.CloseOne?
  {
    var p := s.workers[v].phase;
    step := if p.Guarded? then Check(v, true) else if p.Ordered? then Store(v) else Commit(v);
  }
}

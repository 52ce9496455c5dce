/** The persisted kill switch (services/risk/service.py, `_kill_switch_active`, `_set_kill_switch`):
    any number of callers, each in transactions of its own, without a lock around them. */
module KillSwitch {
  import opened Prelude

  /** `armedAt` is missing when the stored time is absent or malformed. */
  datatype Switch = Switch(active: bool, armedAt: Option<int>)

  datatype Caller = Set(value: Switch) | Check(now: int)

  datatype Phase =
    | Looking
    | Reading(attempt: nat)
    | Inserting(attempt: nat)
    | Holding(attempt: nat)
    | Done
    | Failed

  datatype Writer = Writer(caller: Caller, phase: Phase)

  /** `row` is the committed row; `holder` has it locked or inserted but not committed. */
  datatype State = State(writers: seq<Writer>, row: Option<Switch>, holder: Option<nat>)

  /** `rowLocks`: the database honours SELECT ... FOR UPDATE. */
  datatype Config = Config(enabled: bool, rearmAfter: int, rowLocks: bool)

  datatype Step = Look(w: nat) | Read(w: nat) | Insert(w: nat) | Commit(w: nat)

  /** What a check at `now` finds due to be disarmed. */
  predicate Expired(cfg: Config, row: Option<Switch>, now: int) {
    cfg.enabled && row.Some? && row.value.active && row.value.armedAt.Some? && row.value.armedAt.value + cfg.rearmAfter < now
  }

  /** A check disarms with its own time. */
  function Written(c: Caller): Switch {
    match c
    case Set(value) => value
    case Check(now) => Switch(false, Some(now))
  }

  predicate Enabled(cfg: Config, s: State, step: Step) {
    && step.w < |s.writers|
    && var p := s.writers[step.w].phase;
       match step
       case Look(_) => p.Looking?
       case Read(_) => p.Reading? && (s.row.Some? && cfg.rowLocks ==> s.holder.None?)
       case Insert(_) => p.Inserting? && s.holder.None?
       case Commit(_) => p.Holding?
  }

  function At(s: State, w: nat, p: Phase): State
    requires w < |s.writers|
  {
    s.(writers := s.writers[w := s.writers[w].(phase := p)])
  }

  /** A duplicate key rolls the transaction back; the second one raises `RuntimeError`. */
  function Retry(attempt: nat): Phase {
    if attempt == 0 then Reading(1) else Failed
  }

  function Effect(cfg: Config, s: State, step: Step): State
    requires Enabled(cfg, s, step)
  {
    var w := s.writers[step.w];
    match step
    case Look(i) => At(s, i, if w.caller.Check? && !Expired(cfg, s.row, w.caller.now) then Done else Reading(0))
    case Read(i) =>
      if s.row.None? then At(s, i, Inserting(w.phase.attempt))
      else At(if cfg.rowLocks then s.(holder := Some(i)) else s, i, Holding(w.phase.attempt))
    case Insert(i) =>
      if s.row.Some? then At(s, i, Retry(w.phase.attempt)) else At(s.(holder := Some(i)), i, Holding(w.phase.attempt))
    case Commit(i) =>
      At(s, i, Done).(row := Some(Written(w.caller)), holder := if s.holder == Some(i) then None else s.holder)
  }

  predicate ValidRun(cfg: Config, s: State, steps: seq<Step>)
    decreases |steps|, 0
  {
    steps == []
    || (ValidRun(cfg, s, steps[..|steps| - 1])
        && Enabled(cfg, Run(cfg, s, steps[..|steps| - 1]), steps[|steps| - 1]))
  }

  function Run(cfg: Config, s: State, steps: seq<Step>): State
    requires ValidRun(cfg, s, steps)
    decreases |steps|, 1
  {
    if steps == [] then s else Effect(cfg, Run(cfg, s, steps[..|steps| - 1]), steps[|steps| - 1])
  }

  ghost predicate Initial(s: State) {
    s.holder.None? && forall w :: 0 <= w < |s.writers| ==> s.writers[w].phase == Looking
  }

  // ---------- the retry always suffices ----------

  /** A second attempt starts only once the row is committed, and the row is never deleted. */
  predicate WriterOk(s: State, w: nat)
    requires w < |s.writers|
  {
    match s.writers[w].phase
    case Reading(a) => a == 0 || (a == 1 && s.row.Some?)
    case Inserting(a) => a == 0
    case Failed => false
    case _ => true
  }

  /** Whoever is waited for is about to commit. */
  ghost predicate Inv(s: State) {
    && (forall w :: 0 <= w < |s.writers| ==> WriterOk(s, w))
    && (s.holder.Some? ==> s.holder.value < |s.writers| && s.writers[s.holder.value].phase.Holding?)
  }

  lemma StepKeeps(cfg: Config, s: State, step: Step)
    requires Inv(s) && Enabled(cfg, s, step)
    ensures Inv(Effect(cfg, s, step))
  {
    var t := Effect(cfg, s, step);
    forall w | 0 <= w < |t.writers|
      ensures WriterOk(t, w)
    {
      assert WriterOk(s, w);
    }
  }

  lemma {:induction false} RunKeeps(cfg: Config, s: State, steps: seq<Step>)
    requires Inv(s) && ValidRun(cfg, s, steps)
    ensures Inv(Run(cfg, s, steps)) && |Run(cfg, s, steps).writers| == |s.writers|
    ensures forall w :: 0 <= w < |s.writers| ==> Run(cfg, s, steps).writers[w].caller == s.writers[w].caller
  {
    if steps != [] {
      RunKeeps(cfg, s, steps[..|steps| - 1]);
      StepKeeps(cfg, Run(cfg, s, steps[..|steps| - 1]), steps[|steps| - 1]);
    }
  }

  /** The RuntimeError after the second attempt cannot be reached. */
  lemma NeverFails(cfg: Config, s: State, steps: seq<Step>)
    requires Initial(s) && ValidRun(cfg, s, steps)
    ensures forall w :: 0 <= w < |Run(cfg, s, steps).writers| ==> Run(cfg, s, steps).writers[w].phase != Failed
  {
    RunKeeps(cfg, s, steps);
    var t := Run(cfg, s, steps);
    forall w | 0 <= w < |t.writers|
      ensures t.writers[w].phase != Failed
    {
      assert WriterOk(t, w);
    }
  }

  // ---------- every call completes ----------

  function Rank(p: Phase): nat {
    match p
    case Looking => 5
    case Reading(a) => if a == 0 then 4 else 2
    case Inserting(_) => 3
    case Holding(_) => 1
    case _ => 0
  }

  function Total(writers: seq<Writer>): nat {
    if writers == [] then 0 else Total(writers[..|writers| - 1]) + Rank(writers[|writers| - 1].phase)
  }

  lemma {:induction false} TotalAfter(writers: seq<Writer>, i: nat, w: Writer)
    requires i < |writers|
    ensures Total(writers[i := w]) == Total(writers) - Rank(writers[i].phase) + Rank(w.phase)
  {
    var n := |writers| - 1;
    if i < n {
      TotalAfter(writers[..n], i, w);
      assert writers[i := w][..n] == writers[..n][i := w];
    } else {
      assert writers[i := w][..n] == writers[..n];
    }
  }

  lemma {:induction false} AllDoneIffTotal(writers: seq<Writer>)
    ensures Total(writers) == 0 <==> forall w :: 0 <= w < |writers| ==> Rank(writers[w].phase) == 0
  {
    if writers != [] {
      AllDoneIffTotal(writers[..|writers| - 1]);
    }
  }

  lemma StepDecreases(cfg: Config, s: State, step: Step)
    requires Inv(s) && Enabled(cfg, s, step)
    ensures Total(Effect(cfg, s, step).writers) < Total(s.writers)
  {
    var t := Effect(cfg, s, step);
    assert WriterOk(s, step.w);
    TotalAfter(s.writers, step.w, t.writers[step.w]);
  }

  /** While some call is unfinished, some call can step. */
  lemma NoDeadlock(cfg: Config, s: State, w: nat) returns (step: Step)
    requires Inv(s) && w < |s.writers| && Rank(s.writers[w].phase) > 0
    ensures Enabled(cfg, s, step)
  {
    if s.holder.Some? {
      step := Commit(s.holder.value);
    } else {
      var p := s.writers[w].phase;
      step := if p.Looking? then Look(w) else if p.Reading? then Read(w) else if p.Inserting? then Insert(w) else Commit(w);
    }
  }

  lemma Extend(cfg: Config, s: State, steps: seq<Step>, step: Step)
    requires ValidRun(cfg, s, steps) && Enabled(cfg, Run(cfg, s, steps), step)
    ensures ValidRun(cfg, s, steps + [step]) && Run(cfg, s, steps + [step]) == Effect(cfg, Run(cfg, s, steps), step)
  {
    hide Enabled, Effect;
    assert (steps + [step])[..|steps|] == steps;
  }

  ghost predicate AllDone(s: State) {
    forall w :: 0 <= w < |s.writers| ==> s.writers[w].phase == Done
  }

  /** Every interleaving ends, within five steps a call. */
  lemma {:induction false} RunsAreBounded(cfg: Config, s: State, steps: seq<Step>)
    requires Inv(s) && ValidRun(cfg, s, steps)
    ensures |steps| + Total(Run(cfg, s, steps).writers) <= Total(s.writers)
  {
    hide Inv, Effect, Enabled;
    if steps != [] {
      var front := steps[..|steps| - 1];
      RunsAreBounded(cfg, s, front);
      RunKeeps(cfg, s, front);
      StepDecreases(cfg, Run(cfg, s, front), steps[|steps| - 1]);
    }
  }

  /** From anywhere in a run every call can still finish without an error. */
  lemma {:induction false} Completes(cfg: Config, s: State, steps: seq<Step>) returns (all: seq<Step>)
    requires Initial(s) && ValidRun(cfg, s, steps)
    ensures steps <= all && ValidRun(cfg, s, all) && AllDone(Run(cfg, s, all))
    decreases Total(Run(cfg, s, steps).writers)
  {
    RunKeeps(cfg, s, steps);
    var t := Run(cfg, s, steps);
    NeverFails(cfg, s, steps);
    hide Run, ValidRun, Inv, Effect, Enabled;
    if w :| 0 <= w < |t.writers| && Rank(t.writers[w].phase) > 0 {
      var step := NoDeadlock(cfg, t, w);
      StepDecreases(cfg, t, step);
      Extend(cfg, s, steps, step);
      all := Completes(cfg, s, steps + [step]);
    } else {
      all := steps;
    }
  }

  // ---------- what the row holds ----------

  /** What the last commit of a run wrote. */
  function LastWritten(s: State, steps: seq<Step>): Option<Switch> {
    if steps == [] then s.row
    else
      var last := steps[|steps| - 1];
      if last.Commit? && last.w < |s.writers| then Some(Written(s.writers[last.w].caller))
      else LastWritten(s, steps[..|steps| - 1])
  }

  lemma {:induction false} LastWriteWins(cfg: Config, s: State, steps: seq<Step>)
    requires Inv(s) && ValidRun(cfg, s, steps)
    ensures Run(cfg, s, steps).row == LastWritten(s, steps)
  {
    if steps != [] {
      LastWriteWins(cfg, s, steps[..|steps| - 1]);
      RunKeeps(cfg, s, steps[..|steps| - 1]);
    }
  }

  // ---------- expiry against arming ----------

  predicate Arming(w: Writer) {
    w.caller.Set? && w.caller.value.active
  }

  /** Every call arms the switch or checks it, and no check finds due what an arming call writes. */
  ghost predicate ArmsAndChecks(cfg: Config, writers: seq<Writer>) {
    forall i, j :: 0 <= i < |writers| && 0 <= j < |writers| ==>
      && (Arming(writers[i]) || writers[i].caller.Check?)
      && (Arming(writers[i]) && writers[j].caller.Check? ==> !Expired(cfg, Some(writers[i].caller.value), writers[j].caller.now))
  }

  ghost predicate NothingDue(cfg: Config, s: State) {
    forall w :: 0 <= w < |s.writers| && s.writers[w].caller.Check? ==> !Expired(cfg, s.row, s.writers[w].caller.now)
  }

  /** Once an arming call has returned the switch is on. */
  ghost predicate ArmsKept(s: State) {
    (exists w :: 0 <= w < |s.writers| && Arming(s.writers[w]) && s.writers[w].phase == Done)
    ==> s.row.Some? && s.row.value.active
  }

  /** Checks that found nothing due never write. */
  ghost predicate ChecksIdle(s: State) {
    forall w :: 0 <= w < |s.writers| && s.writers[w].caller.Check? ==> s.writers[w].phase == Looking || s.writers[w].phase == Done
  }

  lemma {:induction false} ArmsStay(cfg: Config, s: State, steps: seq<Step>)
    requires Initial(s) && ArmsAndChecks(cfg, s.writers) && NothingDue(cfg, s) && ValidRun(cfg, s, steps)
    ensures var t := Run(cfg, s, steps);
      ArmsKept(t) && ArmsAndChecks(cfg, t.writers) && NothingDue(cfg, t) && ChecksIdle(t)
  {
    if steps != [] {
      ArmsStay(cfg, s, steps[..|steps| - 1]);
      ArmsStayStep(cfg, Run(cfg, s, steps[..|steps| - 1]), steps[|steps| - 1]);
    }
  }

  lemma ArmsStayStep(cfg: Config, s: State, step: Step)
    requires ArmsKept(s) && ArmsAndChecks(cfg, s.writers) && NothingDue(cfg, s) && ChecksIdle(s) && Enabled(cfg, s, step)
    ensures var t := Effect(cfg, s, step);
      ArmsKept(t) && ArmsAndChecks(cfg, t.writers) && NothingDue(cfg, t) && ChecksIdle(t)
  {
    var t := Effect(cfg, s, step);
    assert forall w :: 0 <= w < |t.writers| ==> t.writers[w].caller == s.writers[w].caller;
  }

  /** The check reads and disarms in two transactions: an arming call that commits in between is
      undone. */
  lemma ExpiryOvertakesArm(cfg: Config, s: State, check: nat, arm: nat) returns (steps: seq<Step>)
    requires Initial(s) && check < |s.writers| && arm < |s.writers| && Arming(s.writers[arm])
    requires s.writers[check].caller.Check? && Expired(cfg, s.row, s.writers[check].caller.now)
    ensures ValidRun(cfg, s, steps) && !ArmsKept(Run(cfg, s, steps))
  {
    steps := [];
    var todo := [Look(check), Look(arm), Read(arm), Commit(arm), Read(check), Commit(check)];
    var t := s;
    assert ValidRun(cfg, s, []) && Run(cfg, s, []) == s;
    hide ValidRun, Run;
    for k := 0 to |todo|
      invariant ValidRun(cfg, s, steps) && Run(cfg, s, steps) == t
      invariant |t.writers| == |s.writers|
      invariant t.writers[check] == s.writers[check].(phase := OvertakePhase(k, 0, 4))
      invariant t.writers[arm] == s.writers[arm].(phase := OvertakePhase(k, 1, 2))
      invariant t.holder == if cfg.rowLocks && k == 3 then Some(arm) else if cfg.rowLocks && k == 5 then Some(check) else None
      invariant t.row == if k < 4 then s.row else Some(Written(s.writers[if k < 6 then arm else check].caller))
    {
      Extend(cfg, s, steps, todo[k]);
      t := Effect(cfg, t, todo[k]);
      steps := steps + [todo[k]];
    }
  }

  /** The phase, after `k` steps, of a call that looks at step `look` and reads at step `read`. */
  function OvertakePhase(k: nat, look: nat, read: nat): Phase {
    if k <= look then Looking else if k <= read then Reading(0) else if k <= read + 1 then Holding(0) else Done
  }

  /** Arming calls hold against concurrent checks, over every interleaving, exactly when no check
      finds the switch that was stored before them due. */
  lemma ArmsSurviveIff(cfg: Config, s: State, arm: nat)
    requires Initial(s) && ArmsAndChecks(cfg, s.writers) && arm < |s.writers| && Arming(s.writers[arm])
    ensures (forall steps: seq<Step> | ValidRun(cfg, s, steps) :: ArmsKept(Run(cfg, s, steps))) <==> NothingDue(cfg, s)
  {
    if NothingDue(cfg, s) {
      forall steps: seq<Step> | ValidRun(cfg, s, steps)
        ensures ArmsKept(Run(cfg, s, steps))
      {
        ArmsStay(cfg, s, steps);
      }
    } else {
      var check :| 0 <= check < |s.writers| && s.writers[check].caller.Check? && Expired(cfg, s.row, s.writers[check].caller.now);
      var steps := ExpiryOvertakesArm(cfg, s, check, arm);
      assert ValidRun(cfg, s, steps) && !ArmsKept(Run(cfg, s, steps));
    }
  }

  // ---------- when a check disarms, and what is stored ----------

  /** Armed longer ago than the switch stays armed; a switch without a known time never is. */
  ghost predicate DueAt(cfg: Config, row: Option<Switch>, now: int) {
    cfg.enabled && exists at :: row == Some(Switch(true, Some(at))) && now - at > cfg.rearmAfter
  }

  /** The first look of a call is its last exactly when it is a check that finds nothing due; any other
      goes on to write. */
  lemma CheckDisarmsIff(cfg: Config, s: State, w: nat)
    requires Enabled(cfg, s, Look(w))
    ensures var c, after := s.writers[w].caller, Effect(cfg, s, Look(w));
      && after == s.(writers := s.writers[w := Writer(c, after.writers[w].phase)])
      && (after.writers[w].phase == Done <==> c.Check? && !DueAt(cfg, s.row, c.now))
      && (after.writers[w].phase == Reading(0) <==> c.Set? || DueAt(cfg, s.row, c.now))
  {
  }

  /** A commit stores what its caller set, or the disarmed switch with the time of the check. */
  lemma CommitStores(cfg: Config, s: State, w: nat)
    requires Enabled(cfg, s, Commit(w))
    ensures match s.writers[w].caller
      case Set(value) => Effect(cfg, s, Commit(w)).row == Some(value)
      case Check(now) => Effect(cfg, s, Commit(w)).row == Some(Switch(false, Some(now)))
  {
  }

  // ---------- row locks exclude ----------

  ghost predicate HoldersLock(s: State) {
    forall w :: 0 <= w < |s.writers| && s.writers[w].phase.Holding? ==> s.holder == Some(w)
  }

  /** Where the database honours row locks, at most one call at a time is between its read or insert and
      its commit, in every reachable state. */
  lemma {:induction false} HoldersExclude(cfg: Config, s: State, steps: seq<Step>)
    requires cfg.rowLocks && Initial(s) && ValidRun(cfg, s, steps)
    ensures HoldersLock(Run(cfg, s, steps))
  {
    if steps != [] {
      HoldersExclude(cfg, s, steps[..|steps| - 1]);
      StepExcludes(cfg, Run(cfg, s, steps[..|steps| - 1]), steps[|steps| - 1]);
    }
  }

  lemma StepExcludes(cfg: Config, s: State, step: Step)
    requires cfg.rowLocks && HoldersLock(s) && Enabled(cfg, s, step)
    ensures HoldersLock(Effect(cfg, s, step))
  {
  }
}

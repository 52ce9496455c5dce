/** The strategy promotion workflow and its audit log (services/promotion/service.py). */
module Promotion {
  import opened Prelude

  datatype Stage = Draft | Paper | Demo | Review | Approved | Live

  function Rank(s: Stage): nat {
    match s
    case Draft => 0
    case Paper => 1
    case Demo => 2
    case Review => 3
    case Approved => 4
    case Live => 5
  }

  datatype Entry = Entry(strategy: string, fromStage: Stage, toStage: Stage, actor: string, reason: string)

  datatype Registry = Registry(stages: map<string, Stage>, log: seq<Entry>)

  datatype Metrics = Metrics(trades: int, winRate: real, profitFactor: real, maxDrawdownPercent: real)

  /** A gate asks for at least the first three figures and at most the last. */
  datatype Gates = Gates(paper: Option<Metrics>, live: Option<Metrics>)

  function StageOf(reg: Registry, id: string): Stage {
    if id in reg.stages then reg.stages[id] else Draft
  }

  predicate HumanGated(s: Stage) {
    s == Approved || s == Live
  }

  predicate AllowedForward(current: Stage, target: Stage) {
    match current
    case Draft => target == Paper
    case Paper => target == Demo
    case Demo => target == Review
    case Review => target == Approved
    case Approved => target == Live
    case Live => false
  }

  predicate MeetsGate(m: Metrics, gates: Gates, target: Stage) {
    var gate := if HumanGated(target) then gates.live else gates.paper;
    gate.Some? ==>
      && m.trades >= gate.value.trades && m.winRate >= gate.value.winRate
      && m.profitFactor >= gate.value.profitFactor && m.maxDrawdownPercent <= gate.value.maxDrawdownPercent
  }

  /** Write the stage row and append to the audit log, in one transaction. `current` is what the
      caller read in an earlier one. */
  function Transition(reg: Registry, id: string, current: Stage, target: Stage, actor: string, reason: string): Registry {
    Registry(reg.stages[id := target], reg.log + [Entry(id, current, target, actor, reason)])
  }

  predicate MayPromote(current: Stage, target: Stage, actor: string, reason: string,
                       check: bool, metrics: Metrics, gates: Gates)
  {
    && AllowedForward(current, target)
    && (HumanGated(target) ==> actor != "" && reason != "")
    && (check && (target == Demo || target == Live) ==> MeetsGate(metrics, gates, target))
  }

  function DemotionReason(target: Stage, reason: string): string {
    if reason != "" then reason
    else
      "demoted to " + match target
      case Draft => "draft"
      case Paper => "paper"
      case Demo => "demo"
      case Review => "review"
      case Approved => "approved"
      case Live => "live"
  }

  datatype Op =
    | PromoteOp(id: string, target: Stage, actor: string, reason: string, check: bool, metrics: Metrics)
    | DemoteOp(id: string, target: Stage, actor: string, reason: string)

  /** What a call decides on the stage it reads: the move to write, unless it refuses and raises. */
  function Decision(reg: Registry, gates: Gates, op: Op): Option<Entry> {
    var current := StageOf(reg, op.id);
    match op
    case PromoteOp(id, target, actor, reason, check, metrics) =>
      if MayPromote(current, target, actor, reason, check, metrics, gates)
      then Some(Entry(id, current, target, actor, reason)) else None
    case DemoteOp(id, target, actor, reason) =>
      if Rank(target) < Rank(current)
      then Some(Entry(id, current, target, actor, DemotionReason(target, reason))) else None
  }

  function Write(reg: Registry, e: Entry): Registry {
    Transition(reg, e.strategy, e.fromStage, e.toStage, e.actor, e.reason)
  }

  /** A call that nothing comes between: a refused one changes nothing. */
  function Apply(reg: Registry, gates: Gates, op: Op): Registry {
    match Decision(reg, gates, op)
    case None => reg
    case Some(e) => Write(reg, e)
  }

  /** Calls of any number of processes: each reads in one transaction and writes in a later one.
      `pending` are the moves decided but not yet written. */
  datatype System = System(reg: Registry, pending: seq<Entry>)

  datatype Step = Decide(op: Op) | Commit(k: nat)

  function Advance(s: System, gates: Gates, step: Step): System {
    match step
    case Decide(op) =>
      var e := Decision(s.reg, gates, op);
      if e.Some? then s.(pending := s.pending + [e.value]) else s
    case Commit(k) =>
      if k < |s.pending| then System(Write(s.reg, s.pending[k]), s.pending[..k] + s.pending[k + 1..]) else s
  }

  function Run(gates: Gates, steps: seq<Step>): System {
    if steps == [] then System(Registry(map[], []), [])
    else Advance(Run(gates, steps[..|steps| - 1]), gates, steps[|steps| - 1])
  }

  /** A write finds the stage that its call read. */
  predicate FindsStage(s: System, step: Step) {
    step.Commit? && step.k < |s.pending| ==> StageOf(s.reg, s.pending[step.k].strategy) == s.pending[step.k].fromStage
  }

  predicate UndisturbedRun(gates: Gates, steps: seq<Step>) {
    steps == []
    || (UndisturbedRun(gates, steps[..|steps| - 1]) && FindsStage(Run(gates, steps[..|steps| - 1]), steps[|steps| - 1]))
  }

  predicate StageGuard(reg: Registry, id: string, liveMode: bool) {
    liveMode ==> Rank(StageOf(reg, id)) >= Rank(Approved)
  }

  // ---------- the audit chain ----------

  function EntriesOf(log: seq<Entry>, id: string): seq<Entry> {
    if log == [] then []
    else EntriesOf(log[..|log| - 1], id) + (if log[|log| - 1].strategy == id then [log[|log| - 1]] else [])
  }

  /** A forward move is one stage and, into the last two, signed with a reason; any other move goes
      back. */
  predicate LegalEntry(e: Entry) {
    if Rank(e.toStage) > Rank(e.fromStage)
    then Rank(e.toStage) == Rank(e.fromStage) + 1 && (HumanGated(e.toStage) ==> e.actor != "" && e.reason != "")
    else Rank(e.toStage) < Rank(e.fromStage)
  }

  /** The entries lead, end to end, from draft to the given stage. */
  predicate Chain(es: seq<Entry>, stage: Stage) {
    if es == [] then stage == Draft
    else
      var last := es[|es| - 1];
      last.toStage == stage && LegalEntry(last) && Chain(es[..|es| - 1], last.fromStage)
  }

  ghost predicate Audited(reg: Registry) {
    forall id :: Chain(EntriesOf(reg.log, id), StageOf(reg, id))
  }

  lemma EntriesSnoc(log: seq<Entry>, e: Entry, id: string)
    ensures EntriesOf(log + [e], id) == EntriesOf(log, id) + (if e.strategy == id then [e] else [])
  {
    assert (log + [e])[..|log|] == log;
  }

  /** A legal transition keeps every strategy's audit chain connected exactly when it starts from
      the stage the strategy is in when it is written. */
  lemma TransitionKeepsChainIff(reg: Registry, id: string, current: Stage, target: Stage, actor: string, reason: string)
    requires Audited(reg) && LegalEntry(Entry(id, current, target, actor, reason))
    ensures Audited(Transition(reg, id, current, target, actor, reason)) <==> current == StageOf(reg, id)
  {
    var e := Entry(id, current, target, actor, reason);
    var reg' := Transition(reg, id, current, target, actor, reason);
    forall other
      ensures Chain(EntriesOf(reg'.log, other), StageOf(reg', other))
         <==> (other == id ==> current == StageOf(reg, id))
    {
      EntriesSnoc(reg.log, e, other);
      assert Chain(EntriesOf(reg.log, other), StageOf(reg, other));
      if other == id {
        assert (EntriesOf(reg.log, id) + [e])[..|EntriesOf(reg.log, id)|] == EntriesOf(reg.log, id);
        ChainEndsOnce(EntriesOf(reg.log, id), current, StageOf(reg, id));
      } else {
        assert EntriesOf(reg.log, other) + [] == EntriesOf(reg.log, other);
      }
    }
    if current == StageOf(reg, id) {
      assert Audited(reg');
    } else {
      assert !Chain(EntriesOf(reg'.log, id), StageOf(reg', id));
    }
  }

  lemma ChainEndsOnce(es: seq<Entry>, a: Stage, b: Stage)
    requires Chain(es, b)
    ensures Chain(es, a) <==> a == b
  {
  }

  lemma DecisionIsLegal(reg: Registry, gates: Gates, op: Op)
    ensures Decision(reg, gates, op).Some? ==>
      var e := Decision(reg, gates, op).value; LegalEntry(e) && e.strategy == op.id && e.fromStage == StageOf(reg, op.id)
  {
  }

  /** The stage row holds the last entry's stage, chain or not. */
  predicate RowIsLast(reg: Registry, id: string) {
    var es := EntriesOf(reg.log, id);
    StageOf(reg, id) == if es == [] then Draft else es[|es| - 1].toStage
  }

  ghost predicate Consistent(s: System) {
    (forall id :: RowIsLast(s.reg, id)) && (forall k :: 0 <= k < |s.pending| ==> LegalEntry(s.pending[k]))
  }

  lemma AdvanceKeeps(s: System, gates: Gates, step: Step)
    requires Consistent(s)
    ensures Consistent(Advance(s, gates, step))
  {
    match step
    case Decide(op) => DecisionIsLegal(s.reg, gates, op);
    case Commit(k) =>
      if k < |s.pending| {
        var e, t := s.pending[k], Advance(s, gates, step);
        forall id
          ensures RowIsLast(t.reg, id)
        {
          EntriesSnoc(s.reg.log, e, id);
          assert RowIsLast(s.reg, id);
        }
      }
  }

  /** No later write mends a broken log. */
  lemma BrokenStays(reg: Registry, e: Entry)
    requires !Audited(reg) && forall id :: RowIsLast(reg, id)
    ensures !Audited(Write(reg, e))
  {
    var id :| !Chain(EntriesOf(reg.log, id), StageOf(reg, id));
    EntriesSnoc(reg.log, e, id);
    var es := EntriesOf(reg.log, id);
    assert RowIsLast(reg, id);
    if e.strategy == id {
      assert (es + [e])[..|es|] == es;
    } else {
      assert es + [] == es;
    }
    assert !Chain(EntriesOf(Write(reg, e).log, id), StageOf(Write(reg, e), id));
  }

  /** Over any interleaving of calls, every strategy's audit log is a connected chain of legal moves
      from draft to its current stage exactly when each write found the stage its call had read. */
  lemma {:induction false} AuditIsChain(gates: Gates, steps: seq<Step>)
    ensures Audited(Run(gates, steps).reg) <==> UndisturbedRun(gates, steps)
    ensures Consistent(Run(gates, steps))
  {
    hide Audited, Consistent;
    if steps == [] {
      NothingLogged();
    } else {
      var before, step := Run(gates, steps[..|steps| - 1]), steps[|steps| - 1];
      AuditIsChain(gates, steps[..|steps| - 1]);
      AdvanceKeeps(before, gates, step);
      if step.Commit? && step.k < |before.pending| {
        CommitKeepsChainIff(before, step.k);
      }
    }
  }

  lemma NothingLogged()
    ensures Audited(Registry(map[], [])) && Consistent(System(Registry(map[], []), []))
  {
  }

  lemma CommitKeepsChainIff(s: System, k: nat)
    requires Consistent(s) && k < |s.pending|
    ensures Audited(Write(s.reg, s.pending[k])) <==> Audited(s.reg) && FindsStage(s, Commit(k))
  {
    var e := s.pending[k];
    if Audited(s.reg) {
      TransitionKeepsChainIff(s.reg, e.strategy, e.fromStage, e.toStage, e.actor, e.reason);
    } else {
      BrokenStays(s.reg, e);
    }
  }

  /** The entry at `k` is a signed approval and nothing after it left the approved stages. */
  predicate StandingApproval(es: seq<Entry>, k: nat)
    requires k < |es|
  {
    && es[k].fromStage == Review && es[k].toStage == Approved && es[k].actor != "" && es[k].reason != ""
    && forall j :: k < j < |es| ==> Rank(es[j].toStage) >= Rank(Approved)
  }

  ghost predicate HasStandingApproval(es: seq<Entry>) {
    exists k :: 0 <= k < |es| && StandingApproval(es, k)
  }

  // ---------- what an open guard means ----------

  /** A strategy that the live stage guard admits has a standing approval. */
  ghost predicate GuardSound(reg: Registry, id: string) {
    StageGuard(reg, id, true) ==> HasStandingApproval(EntriesOf(reg.log, id))
  }

  ghost predicate AllSound(reg: Registry) {
    forall id :: GuardSound(reg, id)
  }

  /** The step writes a move between the approved stages for a strategy that is below them by now. */
  predicate Reopens(s: System, step: Step) {
    && step.Commit? && step.k < |s.pending|
    && var e := s.pending[step.k];
       Rank(e.fromStage) >= Rank(Approved) && Rank(e.toStage) >= Rank(Approved) && Rank(StageOf(s.reg, e.strategy)) < Rank(Approved)
  }

  lemma ApprovalSnoc(es: seq<Entry>, e: Entry)
    ensures HasStandingApproval(es + [e])
       <==> (Rank(e.toStage) >= Rank(Approved) && HasStandingApproval(es)) || StandingApproval([e], 0)
  {
    var all, n := es + [e], |es|;
    assert all[n] == e;
    if k :| 0 <= k < |all| && StandingApproval(all, k) {
      if k < n {
        assert all[k] == es[k];
        assert forall j :: k < j < n ==> es[j] == all[j];
        assert StandingApproval(es, k);
      } else {
        assert StandingApproval([e], 0);
      }
    }
    if StandingApproval([e], 0) {
      assert StandingApproval(all, n);
    }
    if k :| Rank(e.toStage) >= Rank(Approved) && 0 <= k < n && StandingApproval(es, k) {
      assert StandingApproval(all, k);
    }
  }

  /** A strategy below the approved stages has no standing approval. */
  lemma ClosedHasNone(reg: Registry, id: string)
    requires RowIsLast(reg, id) && !StageGuard(reg, id, true)
    ensures !HasStandingApproval(EntriesOf(reg.log, id))
  {
    var es := EntriesOf(reg.log, id);
    forall k | 0 <= k < |es|
      ensures !StandingApproval(es, k)
    {
      assert es[|es| - 1].toStage == StageOf(reg, id);
    }
  }

  /** A write keeps the guard sound exactly when it does not reopen it. */
  lemma StepSoundIff(s: System, gates: Gates, step: Step)
    requires Consistent(s) && AllSound(s.reg)
    ensures AllSound(Advance(s, gates, step).reg) <==> !Reopens(s, step)
  {
    if step.Commit? && step.k < |s.pending| {
      var e, reg := s.pending[step.k], Advance(s, gates, step).reg;
      assert LegalEntry(e);
      hide LegalEntry, HasStandingApproval;
      forall id
        ensures GuardSound(reg, id) <==> (id == e.strategy ==> !Reopens(s, step))
      {
        EntriesSnoc(s.reg.log, e, id);
        assert RowIsLast(s.reg, id) && GuardSound(s.reg, id);
        if id == e.strategy {
          WriteSoundIff(s.reg, e);
        } else {
          assert EntriesOf(s.reg.log, id) + [] == EntriesOf(s.reg.log, id);
        }
      }
      assert GuardSound(reg, e.strategy) <==> !Reopens(s, step);
    }
  }

  lemma WriteSoundIff(reg: Registry, e: Entry)
    requires RowIsLast(reg, e.strategy) && GuardSound(reg, e.strategy) && LegalEntry(e)
    ensures GuardSound(Write(reg, e), e.strategy)
       <==> (Rank(e.fromStage) >= Rank(Approved) && Rank(e.toStage) >= Rank(Approved) ==> StageGuard(reg, e.strategy, true))
  {
    EntriesSnoc(reg.log, e, e.strategy);
    ApprovalSnoc(EntriesOf(reg.log, e.strategy), e);
    if !StageGuard(reg, e.strategy, true) {
      ClosedHasNone(reg, e.strategy);
    }
    hide HasStandingApproval;
  }

  predicate NeverReopens(gates: Gates, steps: seq<Step>) {
    steps == []
    || (NeverReopens(gates, steps[..|steps| - 1]) && !Reopens(Run(gates, steps[..|steps| - 1]), steps[|steps| - 1]))
  }

  /** The guard is sound after each step of the run. */
  ghost predicate SoundThroughout(gates: Gates, steps: seq<Step>) {
    AllSound(Run(gates, steps).reg) && (steps == [] || SoundThroughout(gates, steps[..|steps| - 1]))
  }

  lemma SoundNow(gates: Gates, steps: seq<Step>)
    requires SoundThroughout(gates, steps)
    ensures AllSound(Run(gates, steps).reg)
  {
  }

  /** Over any interleaving of calls, at each point every strategy that the live stage guard admits has
      a signed review-to-approved entry that no later entry took below approved, exactly when no move
      between the approved stages is written for a strategy that has left them since it was read. */
  lemma {:induction false} GuardMeansApprovalIff(gates: Gates, steps: seq<Step>)
    ensures SoundThroughout(gates, steps) <==> NeverReopens(gates, steps)
  {
    hide AllSound, Consistent, Reopens, Advance, Audited;
    if steps == [] {
      NoneAdmitted(gates);
    } else {
      var before := steps[..|steps| - 1];
      GuardMeansApprovalIff(gates, before);
      AuditIsChain(gates, before);
      if SoundThroughout(gates, before) {
        SoundNow(gates, before);
        StepSoundIff(Run(gates, before), gates, steps[|steps| - 1]);
      }
    }
  }

  lemma NoneAdmitted(gates: Gates)
    ensures AllSound(Run(gates, []).reg)
  {
  }

  lemma {:induction false} UndisturbedNeverReopens(gates: Gates, steps: seq<Step>)
    requires UndisturbedRun(gates, steps)
    ensures NeverReopens(gates, steps)
  {
    hide Run;
    if steps != [] {
      UndisturbedNeverReopens(gates, steps[..|steps| - 1]);
    }
  }

  /** In particular when each write found the stage its call had read. */
  lemma GuardMeansApproval(gates: Gates, steps: seq<Step>, id: string)
    requires UndisturbedRun(gates, steps) || NeverReopens(gates, steps)
    requires StageGuard(Run(gates, steps).reg, id, true)
    ensures HasStandingApproval(EntriesOf(Run(gates, steps).reg.log, id))
  {
    hide HasStandingApproval, Run;
    if UndisturbedRun(gates, steps) {
      UndisturbedNeverReopens(gates, steps);
    }
    GuardMeansApprovalIff(gates, steps);
    SoundNow(gates, steps);
    assert GuardSound(Run(gates, steps).reg, id);
  }

  // ---------- runs from the empty system ----------

  /** A promotion that nothing comes between. */
  function Forward(id: string, target: Stage, actor: string, reason: string): seq<Step> {
    [Decide(PromoteOp(id, target, actor, reason, false, Metrics(0, 0.0, 0.0, 0.0))), Commit(0)]
  }

  lemma TwoSteps(gates: Gates, steps: seq<Step>, a: Step, b: Step)
    ensures Run(gates, steps + [a, b]) == Advance(Advance(Run(gates, steps), gates, a), gates, b)
  {
    hide Advance;
    assert (steps + [a, b])[..|steps| + 1] == steps + [a];
    assert (steps + [a])[..|steps|] == steps;
  }

  /** The strategy is at that stage and no call is under way. */
  predicate Settled(s: System, id: string, stage: Stage) {
    s.pending == [] && StageOf(s.reg, id) == stage
  }

  lemma Promotes(gates: Gates, steps: seq<Step>, id: string, current: Stage, target: Stage, actor: string, reason: string)
    requires Settled(Run(gates, steps), id, current) && AllowedForward(current, target) && actor != "" && reason != ""
    ensures Settled(Run(gates, steps + Forward(id, target, actor, reason)), id, target)
  {
    var read, write := Forward(id, target, actor, reason)[0], Forward(id, target, actor, reason)[1];
    TwoSteps(gates, steps, read, write);
    hide Run;
    var s := Advance(Run(gates, steps), gates, read);
    assert s.pending == [Entry(id, current, target, actor, reason)];
  }

  /** The whole way from draft to live. */
  function ToLive(id: string, actor: string, reason: string): seq<Step> {
    Forward(id, Paper, actor, reason) + Forward(id, Demo, actor, reason) + Forward(id, Review, actor, reason)
    + Forward(id, Approved, actor, reason) + Forward(id, Live, actor, reason)
  }

  lemma StartsInDraft(gates: Gates, id: string)
    ensures Settled(Run(gates, []), id, Draft)
  {
  }

  lemma ForwardAllowed()
    ensures AllowedForward(Draft, Paper) && AllowedForward(Paper, Demo) && AllowedForward(Demo, Review)
    ensures AllowedForward(Review, Approved) && AllowedForward(Approved, Live)
  {
  }

  lemma ReachesLive(gates: Gates, id: string, actor: string, reason: string)
    requires actor != "" && reason != ""
    ensures Settled(Run(gates, ToLive(id, actor, reason)), id, Live)
  {
    hide Run, Forward, Settled, AllowedForward;
    StartsInDraft(gates, id);
    ForwardAllowed();
    var paper, demo, review := Forward(id, Paper, actor, reason), Forward(id, Demo, actor, reason), Forward(id, Review, actor, reason);
    Promotes(gates, [], id, Draft, Paper, actor, reason);
    assert [] + paper == paper;
    Promotes(gates, paper, id, Paper, Demo, actor, reason);
    Promotes(gates, paper + demo, id, Demo, Review, actor, reason);
    Promotes(gates, paper + demo + review, id, Review, Approved, actor, reason);
    Promotes(gates, paper + demo + review + Forward(id, Approved, actor, reason), id, Approved, Live, actor, reason);
  }

  /** A strategy goes live; a demotion to approved and a reset both read that; the reset is written
      first. */
  function OvertakenSteps(id: string, actor: string, reason: string): seq<Step> {
    ToLive(id, actor, reason)
    + [Decide(DemoteOp(id, Approved, actor, "")), Decide(DemoteOp(id, Draft, actor, "reset to draft"))] + [Commit(1), Commit(0)]
  }

  /** The stage is read in one transaction and written in another. A demotion from live to approved
      whose read is overtaken by a reset leaves the guard open although the reset undid the approval. */
  lemma OvertakenDemotion(gates: Gates, id: string, actor: string, reason: string)
    requires actor != "" && reason != ""
    ensures var reg := Run(gates, OvertakenSteps(id, actor, reason)).reg;
      StageGuard(reg, id, true) && !Audited(reg) && !HasStandingApproval(EntriesOf(reg.log, id))
  {
    var live := ToLive(id, actor, reason);
    ReachesLive(gates, id, actor, reason);
    AuditIsChain(gates, live);
    var demote, reset := Decide(DemoteOp(id, Approved, actor, "")), Decide(DemoteOp(id, Draft, actor, "reset to draft"));
    TwoSteps(gates, live, demote, reset);
    TwoSteps(gates, live + [demote, reset], Commit(1), Commit(0));
    hide Run, ToLive, Advance, Audited, HasStandingApproval, Settled, Consistent;
    Overtakes(Run(gates, live), gates, id, actor);
  }

  /** Both demotions have read the strategy live and the reset is written. */
  lemma ResetOvertakes(s: System, gates: Gates, id: string, actor: string)
    requires Settled(s, id, Live)
    ensures var demote, reset := Decide(DemoteOp(id, Approved, actor, "")), Decide(DemoteOp(id, Draft, actor, "reset to draft"));
      var e, back := Entry(id, Live, Approved, actor, DemotionReason(Approved, "")), Entry(id, Live, Draft, actor, "reset to draft");
      Advance(Advance(Advance(s, gates, demote), gates, reset), gates, Commit(1)) == System(Write(s.reg, back), [e])
  {
    var demote, reset := Decide(DemoteOp(id, Approved, actor, "")), Decide(DemoteOp(id, Draft, actor, "reset to draft"));
    var e, back := Entry(id, Live, Approved, actor, DemotionReason(Approved, "")), Entry(id, Live, Draft, actor, "reset to draft");
    assert DemotionReason(Draft, "reset to draft") == "reset to draft";
    hide DemotionReason;
    assert Advance(s, gates, demote) == System(s.reg, [e]);
    assert Advance(System(s.reg, [e]), gates, reset) == System(s.reg, [e, back]);
  }

  lemma Overtakes(s: System, gates: Gates, id: string, actor: string)
    requires Settled(s, id, Live) && Consistent(s)
    ensures var demote, reset := Decide(DemoteOp(id, Approved, actor, "")), Decide(DemoteOp(id, Draft, actor, "reset to draft"));
      var reg := Advance(Advance(Advance(Advance(s, gates, demote), gates, reset), gates, Commit(1)), gates, Commit(0)).reg;
      StageGuard(reg, id, true) && !Audited(reg) && !HasStandingApproval(EntriesOf(reg.log, id))
  {
    var demote, reset := Decide(DemoteOp(id, Approved, actor, "")), Decide(DemoteOp(id, Draft, actor, "reset to draft"));
    var e, back := Entry(id, Live, Approved, actor, DemotionReason(Approved, "")), Entry(id, Live, Draft, actor, "reset to draft");
    ResetOvertakes(s, gates, id, actor);
    AdvanceKeeps(s, gates, demote);
    AdvanceKeeps(Advance(s, gates, demote), gates, reset);
    AdvanceKeeps(Advance(Advance(s, gates, demote), gates, reset), gates, Commit(1));
    LateWriteReopens(System(Write(s.reg, back), [e]), gates, e);
  }

  lemma LateWriteReopens(s: System, gates: Gates, e: Entry)
    requires Consistent(s) && s.pending == [e] && StageOf(s.reg, e.strategy) == Draft
    requires Rank(e.fromStage) >= Rank(Approved) && Rank(e.toStage) >= Rank(Approved)
    ensures var reg := Advance(s, gates, Commit(0)).reg;
      StageGuard(reg, e.strategy, true) && !Audited(reg) && !HasStandingApproval(EntriesOf(reg.log, e.strategy))
  {
    assert RowIsLast(s.reg, e.strategy) && s.pending[0] == e && LegalEntry(e);
    hide HasStandingApproval, Audited;
    WriteSoundIff(s.reg, e);
    CommitKeepsChainIff(s, 0);
  }

  function TwiceSteps(id: string): seq<Step> {
    var promote := Decide(PromoteOp(id, Paper, "", "", false, Metrics(0, 0.0, 0.0, 0.0)));
    [promote] + [promote] + [Commit(0)] + [Commit(0)]
  }

  lemma OneMore(gates: Gates, steps: seq<Step>, step: Step)
    ensures Run(gates, steps + [step]) == Advance(Run(gates, steps), gates, step)
    ensures NeverReopens(gates, steps + [step]) <==> NeverReopens(gates, steps) && !Reopens(Run(gates, steps), step)
    ensures UndisturbedRun(gates, steps + [step]) <==> UndisturbedRun(gates, steps) && FindsStage(Run(gates, steps), step)
  {
    hide Advance, Reopens, FindsStage;
    assert (steps + [step])[..|steps|] == steps;
  }

  /** Two calls read draft; the second write finds paper. */
  lemma TwicePromoted(gates: Gates, id: string, s: System)
    requires s == System(Registry(map[], []), [])
    ensures var promote := TwiceSteps(id)[0];
      var s1 := Advance(s, gates, promote);
      var s2 := Advance(s1, gates, promote);
      var s3 := Advance(s2, gates, Commit(0));
      && !Reopens(s, promote) && !Reopens(s1, promote) && !Reopens(s2, Commit(0)) && !Reopens(s3, Commit(0))
      && !FindsStage(s3, Commit(0))
  {
    var e, promote := Entry(id, Draft, Paper, "", ""), TwiceSteps(id)[0];
    var s2 := Advance(Advance(s, gates, promote), gates, promote);
    assert s2 == System(s.reg, [e, e]);
    assert [e, e][..0] + [e, e][1..] == [e];
  }

  /** Two overlapping promotions to paper break the chain and reopen nothing. */
  lemma BrokenChainCanBeHarmless(gates: Gates, id: string)
    ensures !UndisturbedRun(gates, TwiceSteps(id)) && NeverReopens(gates, TwiceSteps(id))
  {
    hide Advance, Reopens, FindsStage;
    var promote := TwiceSteps(id)[0];
    TwicePromoted(gates, id, Run(gates, []));
    assert [] + [promote] == [promote];
    OneMore(gates, [], promote);
    OneMore(gates, [promote], promote);
    OneMore(gates, [promote] + [promote], Commit(0));
    OneMore(gates, [promote] + [promote] + [Commit(0)], Commit(0));
  }

  // ---------- every granted move is written once ----------

  /** The move that a call is granted, if it is. */
  ghost function GrantedBy(s: System, gates: Gates, step: Step): multiset<Entry> {
    if step.Decide? && Decision(s.reg, gates, step.op).Some? then multiset{Decision(s.reg, gates, step.op).value} else multiset{}
  }

  ghost function Granted(gates: Gates, steps: seq<Step>): multiset<Entry> {
    if steps == [] then multiset{}
    else Granted(gates, steps[..|steps| - 1]) + GrantedBy(Run(gates, steps[..|steps| - 1]), gates, steps[|steps| - 1])
  }

  ghost function Moves(s: System): multiset<Entry> {
    multiset(s.reg.log) + multiset(s.pending)
  }

  /** Over any interleaving the log and the moves still to be written hold each granted move once, and no
      other. */
  lemma {:induction false} EachMoveWrittenOnce(gates: Gates, steps: seq<Step>)
    ensures Moves(Run(gates, steps)) == Granted(gates, steps)
  {
    hide Advance, GrantedBy;
    if steps != [] {
      EachMoveWrittenOnce(gates, steps[..|steps| - 1]);
      StepMoves(Run(gates, steps[..|steps| - 1]), gates, steps[|steps| - 1]);
    }
  }

  lemma StepMoves(s: System, gates: Gates, step: Step)
    ensures Moves(Advance(s, gates, step)) == Moves(s) + GrantedBy(s, gates, step)
  {
    hide Decision, Write;
    if step.Commit? && step.k < |s.pending| {
      TakenOut(s.pending, step.k);
      WriteIs(s.reg, s.pending[step.k]);
    }
  }

  lemma TakenOut(pending: seq<Entry>, k: nat)
    requires k < |pending|
    ensures multiset(pending) == multiset(pending[..k] + pending[k + 1..]) + multiset{pending[k]}
  {
    assert pending == pending[..k] + [pending[k]] + pending[k + 1..];
  }

  // ---------- which calls move a strategy ----------

  const ORDER := [Draft, Paper, Demo, Review, Approved, Live]

  ghost predicate Follows(a: Stage, b: Stage) {
    exists k :: 0 <= k < 5 && ORDER[k] == a && ORDER[k + 1] == b
  }

  ghost predicate Precedes(a: Stage, b: Stage) {
    exists i, j :: 0 <= i < j < 6 && ORDER[i] == a && ORDER[j] == b
  }

  ghost predicate Stands(reg: Registry, id: string, stage: Stage) {
    stage == if id in reg.stages then reg.stages[id] else Draft
  }

  /** Without a gate nothing is asked; otherwise enough trades, win rate and profit factor, and no deeper
      drawdown. */
  ghost predicate Passes(m: Metrics, gate: Option<Metrics>) {
    match gate
    case None => true
    case Some(g) =>
      m.trades >= g.trades && m.winRate >= g.winRate && m.profitFactor >= g.profitFactor && m.maxDrawdownPercent <= g.maxDrawdownPercent
  }

  /** A promotion is granted exactly one stage ahead, signed and with a reason into the last two, and, when
      checked, through the paper gate into demo and the live gate into live. */
  lemma PromoteIff(reg: Registry, gates: Gates, id: string, target: Stage, actor: string, reason: string,
                   check: bool, metrics: Metrics, e: Entry)
    ensures Decision(reg, gates, PromoteOp(id, target, actor, reason, check, metrics)) == Some(e)
       <==> && e == Entry(id, e.fromStage, target, actor, reason) && Stands(reg, id, e.fromStage) && Follows(e.fromStage, target)
            && (target == Approved || target == Live ==> actor != "" && reason != "")
            && (check && target == Demo ==> Passes(metrics, gates.paper)) && (check && target == Live ==> Passes(metrics, gates.live))
  {
    hide Follows;
    FollowsIff(StageOf(reg, id), target);
  }

  lemma RankIsPlace(s: Stage, k: nat)
    requires k < 6
    ensures ORDER[k] == s <==> Rank(s) == k
  {
  }

  lemma FollowsIff(a: Stage, b: Stage)
    ensures Follows(a, b) <==> AllowedForward(a, b)
  {
    RankIsPlace(a, Rank(a));
    RankIsPlace(b, Rank(b));
    if k :| 0 <= k < 5 && ORDER[k] == a && ORDER[k + 1] == b {
      RankIsPlace(a, k);
      RankIsPlace(b, k + 1);
    }
    if AllowedForward(a, b) {
      assert ORDER[Rank(a) + 1] == b;
    }
  }

  lemma PrecedesIff(a: Stage, b: Stage)
    ensures Precedes(a, b) <==> Rank(a) < Rank(b)
  {
    RankIsPlace(a, Rank(a));
    RankIsPlace(b, Rank(b));
    if i, j :| 0 <= i < j < 6 && ORDER[i] == a && ORDER[j] == b {
      RankIsPlace(a, i);
      RankIsPlace(b, j);
    }
  }

  /** A write stores the stage and logs the move as it was decided. */
  lemma WriteIs(reg: Registry, e: Entry)
    ensures Write(reg, e) == Registry(reg.stages[e.strategy := e.toStage], reg.log + [e])
  {
  }

  const NAMES := ["draft", "paper", "demo", "review", "approved", "live"]

  /** The given reason, or where the strategy was demoted to. */
  ghost predicate IsReason(target: Stage, given: string, reason: string) {
    if given != "" then reason == given else exists k :: 0 <= k < 6 && ORDER[k] == target && reason == "demoted to " + NAMES[k]
  }

  lemma ReasonIs(target: Stage, given: string, reason: string)
    ensures IsReason(target, given, reason) <==> reason == DemotionReason(target, given)
  {
    RankIsPlace(target, Rank(target));
    if k :| 0 <= k < 6 && ORDER[k] == target && reason == "demoted to " + NAMES[k] {
      RankIsPlace(target, k);
    }
  }

  /** A demotion is granted exactly to an earlier stage. */
  lemma DemoteIff(reg: Registry, gates: Gates, id: string, target: Stage, actor: string, reason: string, e: Entry)
    ensures Decision(reg, gates, DemoteOp(id, target, actor, reason)) == Some(e)
       <==> e == Entry(id, e.fromStage, target, actor, e.reason) && IsReason(target, reason, e.reason)
            && Stands(reg, id, e.fromStage) && Precedes(target, e.fromStage)
  {
    hide Precedes, IsReason, DemotionReason;
    PrecedesIff(target, StageOf(reg, id));
    ReasonIs(target, reason, e.reason);
  }

  /** Live mode admits exactly the strategies that stand at the last two stages. */
  lemma GuardIff(reg: Registry, id: string, stage: Stage)
    requires Stands(reg, id, stage)
    ensures StageGuard(reg, id, true) <==> stage == Approved || stage == Live
    ensures StageGuard(reg, id, false)
  {
  }

  // ---------- the service object ----------

  class PromotionService {
    const gates: Gates
    var stages: map<string, Stage>
    var log: seq<Entry>

    function State(): Registry
      reads this
    {
      Registry(stages, log)
    }

    constructor (gates: Gates)
      ensures this.gates == gates && State() == Registry(map[], [])
    {
      this.gates := gates;
      stages, log := map[], [];
    }

    method Promote(id: string, target: Stage, actor: string, reason: string, check: bool, metrics: Metrics) returns (ok: bool)
      modifies this
      ensures State() == Apply(old(State()), gates, PromoteOp(id, target, actor, reason, check, metrics))
      ensures ok <==> State() != old(State())
    {
      var current := if id in stages then stages[id] else Draft;
      if !AllowedForward(current, target) {
        return false;
      }
      if HumanGated(target) && (actor == "" || reason == "") {
        return false;
      }
      if check && (target == Demo || target == Live) && !MeetsGate(metrics, gates, target) {
        return false;
      }
      Write(id, current, target, actor, reason);
      return true;
    }

    method Demote(id: string, target: Stage, actor: string, reason: string) returns (ok: bool)
      modifies this
      ensures State() == Apply(old(State()), gates, DemoteOp(id, target, actor, reason))
      ensures ok <==> State() != old(State())
    {
      var current := if id in stages then stages[id] else Draft;
      if Rank(target) >= Rank(current) {
        return false;
      }
      Write(id, current, target, actor, DemotionReason(target, reason));
      return true;
    }

    method Write(id: string, current: Stage, target: Stage, actor: string, reason: string)
      modifies this
      ensures State() == Transition(old(State()), id, current, target, actor, reason)
      ensures |log| == |old(log)| + 1
    {
      stages := stages[id := target];
      log := log + [Entry(id, current, target, actor, reason)];
    }
  }
}

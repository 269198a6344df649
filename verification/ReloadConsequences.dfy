/** What every run of reloads means for a graceful replacement and for the order of a later shutdown. */
module ReloadConsequences {
  import opened Common
  import opened Roles
  import TM = TaskManager
  import PR = ParseRouter
  import RD = ReloadDrain
  import opened EngineRuntime
  import opened ReloadInvariant

  // ------------------------------------------------------------- graceful reloads

  /** The two branches after the wait. */
  predicate InGrace(pc: Pc) { pc.StopMaintainer? || Detaching(pc) || pc.PruneRetired? }
  predicate InForce(pc: Pc) { (Stopping(pc) && !pc.StopMaintainer?) || pc.PruneForced? }

  /** Past the wait without having given it up means quiesced; the forced branch is marked as such. */
  predicate GraceInv(e: Engine) {
    && (InGrace(e.pc) || (e.pc.Installing? && !e.forced) ==> RD.Quiesced(e.rt.tracker))
    && (InForce(e.pc) ==> e.forced)
  }

  lemma BranchesStay(pc: Pc)
    requires Stopping(pc) || Detaching(pc)
    ensures InGrace(pc) <==> InGrace(NextPc(pc))
    ensures InForce(pc) <==> InForce(NextPc(pc))
    ensures !NextPc(pc).Installing? && InForce(ForceParser)
  {
  }

  lemma MoveKeepsGrace(e: Engine, step: Step)
    requires GraceInv(e) && Enabled(e, step) && (step.Stop? || step.Detach?)
    ensures GraceInv(Apply(e, step))
  {
    BranchesStay(e.pc);
    assert Apply(e, step).rt.tracker == e.rt.tracker;
  }

  lemma WaitKeepsGrace(e: Engine, input: WaitInput)
    requires GraceInv(e) && Enabled(e, Wait(input))
    ensures GraceInv(Apply(e, Wait(input)))
  {
    var t := Apply(e, Wait(input));
    assert t.pc.StopMaintainer? ==> RD.Quiesced(e.rt.tracker) && t.rt == e.rt;
  }

  lemma PruneKeepsGrace(e: Engine, w: World)
    requires GraceInv(e) && Enabled(e, Prune(w))
    ensures GraceInv(Apply(e, Prune(w)))
  {
    var t := Apply(e, Prune(w));
    assert t.rt.tracker == e.rt.tracker;
    assert t.pc.Installing? ==> t.forced == e.forced;
  }

  lemma EdgeStepKeepsGrace(e: Engine, step: Step)
    requires Enabled(e, step) && (step.Begin? || step.Isolate? || step.Resume?)
    ensures GraceInv(Apply(e, step))
  {
    if step.Begin? {
      assert Apply(e, step).pc == if step.loaded then Isolating else Idle;
    } else if step.Isolate? {
      assert Apply(e, step).pc == if SweepOk(e.rt.detached, step.world) && step.commandOk then Draining else Idle;
    } else {
      assert Apply(e, step).pc == Idle;
    }
    BeforeTheWait(Apply(e, step).pc);
  }

  lemma BeforeTheWait(pc: Pc)
    requires pc.Idle? || pc.Isolating? || pc.Draining?
    ensures !InGrace(pc) && !InForce(pc) && !pc.Installing?
  {
  }

  lemma InstallKeepsGrace(e: Engine)
    requires GraceInv(e) && Enabled(e, InstallPending)
    ensures GraceInv(Apply(e, InstallPending))
  {
  }

  lemma StepKeepsGrace(e: Engine, step: Step)
    requires GraceInv(e) && Enabled(e, step)
    ensures GraceInv(Apply(e, step))
  {
    match step
    case Stop(_) => MoveKeepsGrace(e, step);
    case Detach(_) => MoveKeepsGrace(e, step);
    case Wait(input) => WaitKeepsGrace(e, input);
    case Prune(w) => PruneKeepsGrace(e, w);
    case InstallPending => InstallKeepsGrace(e);
    case _ => EdgeStepKeepsGrace(e, step);
  }

  lemma {:induction false} ReachableGrace(start: Engine, e: Engine, steps: seq<Step>)
    requires GraceInv(start) && Reachable(start, e, steps)
    ensures GraceInv(e)
    decreases |steps|
  {
    if steps != [] {
      StepKeepsGrace(start, steps[0]);
      ReachableGrace(Apply(start, steps[0]), e, steps[1..]);
    }
  }

  /** An epoch is replaced without force only if its tracker is quiesced, in every run of reloads. */
  lemma UnforcedMeansQuiesced(start: Engine, e: Engine, steps: seq<Step>)
    requires Initial(start) && Reachable(start, e, steps)
    requires e.pc.Installing? && !e.forced
    ensures RD.Quiesced(e.rt.tracker)
  {
    ReachableGrace(start, e, steps);
  }

  // ------------------------------------------------------------ shutdown order

  lemma {:induction false} OrderedAt(gs: seq<Group>, epoch: nat, i: nat, j: nat)
    requires Ordered(gs, epoch) && i < j < |gs|
    ensures InOrder(gs[i], gs[j], epoch)
  {
    if i > 0 {
      OrderedAt(gs[1..], epoch, i - 1, j - 1);
    } else {
      assert gs[j] == gs[1..][j - 1];
    }
  }

  /** Group `i` is stopped only after group `j` was joined. */
  predicate JoinedBeforeStop(gs: seq<Group>, force: Option<nat>, j: nat, i: nat)
    requires i < |gs| && j < |gs|
  {
    var t, n := TM.ShutdownTrace(gs, force), |gs|;
    && TM.JoinPos(n, j) < TM.StopPos(n, i) < |t|
    && t[TM.JoinPos(n, j)] == TM.Joined(gs[j])
    && t[TM.StopPos(n, i)] == TM.StopCmd(gs[i], TM.LimitFor(gs[i], force))
  }

  /** Rank decides the order of a shutdown. */
  lemma RankDecides(e: Engine, force: Option<nat>, i: nat, j: nat)
    requires Inv(e) && i < |e.rt.groups| && j < |e.rt.groups|
    requires Ranked(e.rt.groups[i].role) && Ranked(e.rt.groups[j].role)
    requires Rank(e.rt.groups[i].role, 1 + e.installs) < Rank(e.rt.groups[j].role, 1 + e.installs)
    ensures i < j && JoinedBeforeStop(e.rt.groups, force, j, i) && !JoinedBeforeStop(e.rt.groups, force, i, j)
  {
    var gs := e.rt.groups;
    if j < i {
      OrderedAt(gs, e.rt.tracker.epoch, j, i);
    }
    TM.ShutdownShape(gs, force, i);
    TM.ShutdownShape(gs, force, j);
  }

  predicate Downstream(a: TaskRole, b: TaskRole) {
    (a.Sink? && b.Parser?) || (a.Infra? && b.Sink?) || (a.Infra? && b.Parser?)
  }

  lemma DownstreamRank(e: Engine, force: Option<nat>, i: nat, j: nat)
    requires Inv(e) && i < |e.rt.groups| && j < |e.rt.groups|
    requires Downstream(e.rt.groups[i].role, e.rt.groups[j].role)
    ensures JoinedBeforeStop(e.rt.groups, force, j, i)
  {
    RankDecides(e, force, i, j);
  }

  /**
   * Shutdown order survives reloads: at any point of any run, a shutdown joins every parser before
   * it stops a sink and every sink before it stops the infra group.
   */
  lemma ShutdownOrder(start: Engine, e: Engine, steps: seq<Step>,
                      force: Option<nat>, i: nat, j: nat)
    requires Initial(start) && Reachable(start, e, steps)
    requires i < |e.rt.groups| && j < |e.rt.groups|
    requires Downstream(e.rt.groups[i].role, e.rt.groups[j].role)
    ensures JoinedBeforeStop(e.rt.groups, force, j, i)
  {
    AlwaysInv(start, e, steps);
    DownstreamRank(e, force, i, j);
  }

  lemma PickerRank(e: Engine, force: Option<nat>, i: nat, j: nat)
    requires Inv(e) && i < |e.rt.groups| && j < |e.rt.groups|
    requires e.rt.groups[i].role.Parser? && e.rt.groups[j].role.Picker?
    ensures JoinedBeforeStop(e.rt.groups, force, j, i) <==> e.installs == 0
    ensures JoinedBeforeStop(e.rt.groups, force, i, j) <==> e.installs > 0
  {
    if e.installs == 0 {
      RankDecides(e, force, i, j);
    } else {
      RankDecides(e, force, j, i);
    }
  }

  /**
   * The picker is stopped ahead of the parsers it feeds exactly as long as no reload has installed
   * a new epoch: afterwards the parsers are registered behind it and go first.
   */
  lemma PickerStopsFirstIff(start: Engine, e: Engine, steps: seq<Step>,
                            force: Option<nat>, i: nat, j: nat)
    requires Initial(start) && Reachable(start, e, steps)
    requires i < |e.rt.groups| && j < |e.rt.groups|
    requires e.rt.groups[i].role.Parser? && e.rt.groups[j].role.Picker?
    ensures JoinedBeforeStop(e.rt.groups, force, j, i) <==> e.installs == 0
    ensures JoinedBeforeStop(e.rt.groups, force, i, j) <==> e.installs > 0
  {
    AlwaysInv(start, e, steps);
    PickerRank(e, force, i, j);
  }
}

/** What reloads can cost: groups dropped unjoined, and with them the picker. */
module ReloadLosses {
  import opened Common
  import opened Roles
  import TM = TaskManager
  import RD = ReloadDrain
  import opened EngineRuntime
  import opened ReloadInvariant

  // --------------------------------------------------------- the guards of a run

  /** Every join the step makes succeeds. */
  predicate JoinsOk(e: Engine, step: Step)
    requires Enabled(e, step)
  {
    match step
    case Stop(w) => TM.StopOk(e.rt.groups, RoleAt(e.pc), w)
    case Isolate(w, _) => SweepOk(e.rt.detached, w)
    case Prune(w) => SweepOk(e.rt.detached, w)
    case Resume(w, _) => SweepOk(e.rt.detached, w)
    case _ => true
  }

  /** Some group of the role being stopped cannot be joined. */
  predicate StopFails(e: Engine, step: Step)
    requires Enabled(e, step)
  {
    step.Stop? && !TM.StopOk(e.rt.groups, RoleAt(e.pc), step.world)
  }

  /** The old epoch has drained, but its maintainer or an overdue detached group cannot be joined. */
  predicate RetireFails(e: Engine, step: Step)
    requires Enabled(e, step)
  {
    !JoinsOk(e, step) && (e.pc.StopMaintainer? || e.pc.PruneRetired?)
  }

  ghost predicate AllJoinsOk(e: Engine, steps: seq<Step>)
    decreases |steps|
  {
    steps == [] || (Enabled(e, steps[0]) && JoinsOk(e, steps[0]) && AllJoinsOk(Apply(e, steps[0]), steps[1..]))
  }

  ghost predicate AnyStopFails(e: Engine, steps: seq<Step>)
    decreases |steps|
  {
    steps != [] && Enabled(e, steps[0]) && (StopFails(e, steps[0]) || AnyStopFails(Apply(e, steps[0]), steps[1..]))
  }

  ghost predicate AnyRetireFails(e: Engine, steps: seq<Step>)
    decreases |steps|
  {
    steps != [] && Enabled(e, steps[0]) && (RetireFails(e, steps[0]) || AnyRetireFails(Apply(e, steps[0]), steps[1..]))
  }

  /** Groups seen to have ended by the prunes of a step, and of a run. */
  function EndedIn(step: Step): set<nat> {
    if step.Isolate? || step.Prune? || step.Resume? then step.world.finished else {}
  }

  function EndedOn(steps: seq<Step>): set<nat> {
    if steps == [] then {} else EndedIn(steps[0]) + EndedOn(steps[1..])
  }

  // ---------------------------------------------------------------- lost groups

  lemma {:induction false} FailedSweepLeaves(ds: seq<Detached>, w: World)
    requires !SweepOk(ds, w)
    ensures GroupsOf(SweepRest(ds, w)) != []
  {
    var i :| 0 <= i < |ds| && Sticks(ds[i], w);
    if !Sticks(ds[0], w) {
      assert ds[1..][i - 1] == ds[i];
      FailedSweepLeaves(ds[1..], w);
    }
  }

  lemma {:induction false} FailedStopLeaves(gs: seq<Group>, role: TaskRole, w: World)
    requires !TM.StopOk(gs, role, w)
    ensures TM.StopRest(gs, role, w) != []
  {
    if gs[0].role != role || gs[0].id !in w.broken {
      TM.StopOkTail(gs, role, w);
      FailedStopLeaves(gs[1..], role, w);
    }
  }

  /** Dropping groups unjoined is exactly what a failed join does. */
  lemma PruneLosesIff(rt: Runtime, w: World)
    ensures if SweepOk(rt.detached, w) then Pruned(rt, w).lost == rt.lost else |Pruned(rt, w).lost| > |rt.lost|
  {
    if !SweepOk(rt.detached, w) {
      FailedSweepLeaves(rt.detached, w);
      assert |Pruned(rt, w).lost| == |rt.lost| + |multiset(GroupsOf(SweepRest(rt.detached, w)))|;
    }
  }

  lemma StopLosesIff(rt: Runtime, role: TaskRole, w: World)
    ensures if TM.StopOk(rt.groups, role, w) then Stopped(rt, role, w).lost == rt.lost
            else |Stopped(rt, role, w).lost| > |rt.lost| && Stopped(rt, role, w).groups == []
  {
    if !TM.StopOk(rt.groups, role, w) {
      FailedStopLeaves(rt.groups, role, w);
      assert |Stopped(rt, role, w).lost| == |rt.lost| + |multiset(TM.StopRest(rt.groups, role, w))|;
    }
  }

  lemma PruningStepLoses(e: Engine, step: Step)
    requires Enabled(e, step) && (step.Isolate? || step.Prune? || step.Resume?)
    ensures if JoinsOk(e, step) then Apply(e, step).rt.lost == e.rt.lost else |Apply(e, step).rt.lost| > |e.rt.lost|
  {
    PruneLosesIff(e.rt, step.world);
    assert Apply(e, step).rt.lost == Pruned(e.rt, step.world).lost;
  }

  lemma StopStepLoses(e: Engine, step: Step)
    requires Enabled(e, step) && step.Stop?
    ensures if JoinsOk(e, step) then Apply(e, step).rt.lost == e.rt.lost
            else |Apply(e, step).rt.lost| > |e.rt.lost| && Apply(e, step).rt.groups == []
  {
    StopLosesIff(e.rt, RoleAt(e.pc), step.world);
    assert Apply(e, step).rt == Stopped(e.rt, RoleAt(e.pc), step.world);
  }

  lemma StepLosesIff(e: Engine, step: Step)
    requires Enabled(e, step)
    ensures if JoinsOk(e, step) then Apply(e, step).rt.lost == e.rt.lost else |Apply(e, step).rt.lost| > |e.rt.lost|
  {
    if step.Isolate? || step.Prune? || step.Resume? {
      PruningStepLoses(e, step);
    } else if step.Stop? {
      StopStepLoses(e, step);
    } else {
      QuietStepLoses(e, step);
    }
  }

  lemma QuietStepLoses(e: Engine, step: Step)
    requires Enabled(e, step) && (step.Begin? || step.Wait? || step.Detach? || step.InstallPending?)
    ensures Apply(e, step).rt.lost == e.rt.lost
  {
  }

  /** A run of any number of reloads drops groups unjoined if and only if some join of it fails. */
  lemma {:induction false} NothingLostIff(e: Engine, t: Engine, steps: seq<Step>)
    requires Reachable(e, t, steps)
    ensures t.rt.lost == e.rt.lost <==> AllJoinsOk(e, steps)
    ensures if AllJoinsOk(e, steps) then t.rt.lost == e.rt.lost else |t.rt.lost| > |e.rt.lost|
    ensures |t.rt.lost| >= |e.rt.lost|
    decreases |steps|
  {
    if steps != [] {
      StepLosesIff(e, steps[0]);
      NothingLostIff(Apply(e, steps[0]), t, steps[1..]);
    }
  }

  /**
   * When every join of the run succeeds, nothing is lost and every group of a replaced epoch was
   * joined or is still detached.
   */
  lemma SupersededAccounted(start: Engine, e: Engine, steps: seq<Step>)
    requires Initial(start) && FreshLedger(start.rt) && Reachable(start, e, steps) && AllJoinsOk(start, steps)
    ensures e.rt.lost == multiset{}
    ensures forall g :: g in e.rt.installed && Processing(g.role) && g.epoch != e.rt.tracker.epoch ==>
              g !in e.rt.groups && (g in e.rt.joined || g in GroupsOf(e.rt.detached))
  {
    NothingLostIff(start, e, steps);
    OneEpochAlways(start, e, steps);
  }

  // ------------------------------------------------------- what a success can hide

  lemma {:induction false} WithinIsReachable(e: Engine, t: Engine, steps: seq<Step>)
    requires WithinOne(e, t, steps)
    ensures Reachable(e, t, steps)
    decreases |steps|
  {
    if steps != [] {
      WithinIsReachable(Apply(e, steps[0]), t, steps[1..]);
    }
  }

  /** Any other failing join ends the reload with an error. */
  lemma OtherFailureEnds(e: Engine, step: Step)
    requires Enabled(e, step)
    ensures !JoinsOk(e, step) && !RetireFails(e, step) ==>
              Apply(e, step).pc.Idle? && Apply(e, step).outcome == Some(Failed)
  {
  }

  lemma {:induction false} SuccessJoins(e: Engine, t: Engine, steps: seq<Step>)
    requires WithinOne(e, t, steps) && t.pc.Idle? && t.outcome.Some? && t.outcome.value.Done?
    ensures AllJoinsOk(e, steps) <==> !AnyRetireFails(e, steps)
    decreases |steps|
  {
    if steps == [] {
      return;
    }
    OtherFailureEnds(e, steps[0]);
    if |steps| > 1 {
      SuccessJoins(Apply(e, steps[0]), t, steps[1..]);
    } else {
      assert steps[1..] == [];
    }
  }

  /**
   * A reload that reports success has dropped groups unjoined if and only if, with the old epoch
   * drained, its maintainer or an overdue detached group could not be joined.
   */
  lemma SuccessLosesIff(e: Engine, t: Engine, steps: seq<Step>)
    requires e.pc.Idle? && WithinOne(e, t, steps)
    requires t.pc.Idle? && t.outcome.Some? && t.outcome.value.Done?
    ensures t.rt.lost != e.rt.lost <==> AnyRetireFails(e, steps)
  {
    WithinIsReachable(e, t, steps);
    NothingLostIff(e, t, steps);
    SuccessJoins(e, t, steps);
  }

  // ------------------------------------------------------------------ the picker

  function After(ended: set<nat>): World { TM.World(ended, {}, 0) }

  lemma {:induction false} RunningSame(gs: seq<Group>, v: World, w: World)
    requires v.finished == w.finished
    ensures TM.Running(gs, v) == TM.Running(gs, w)
  {
    if gs != [] {
      RunningSame(gs[1..], v, w);
    }
  }

  lemma {:induction false} RunningTwice(gs: seq<Group>, a: set<nat>, b: set<nat>)
    ensures TM.Running(TM.Running(gs, After(a)), After(b)) == TM.Running(gs, After(a + b))
  {
    if gs != [] {
      RunningTwice(gs[1..], a, b);
      var rest := TM.Running(gs[1..], After(a));
      assert ([gs[0]] + rest)[1..] == rest;
    }
  }

  lemma {:induction false} RunningNone(w: World)
    ensures TM.Running([], w) == []
  {
  }

  /** No picker is among groups exactly if the list of pickers is empty. */
  lemma {:induction false} NoneIsEmpty(gs: seq<Group>, role: TaskRole)
    ensures NoneOf(gs, role) <==> TM.OfRole(gs, role) == []
  {
    if gs != [] {
      NoneIsEmpty(gs[1..], role);
      assert gs == [gs[0]] + gs[1..];
    }
  }

  lemma PruningPickers(e: Engine, step: Step)
    requires Enabled(e, step) && (step.Isolate? || step.Prune? || step.Resume?)
    ensures TM.OfRole(Apply(e, step).rt.groups, Picker)
            == TM.Running(TM.OfRole(e.rt.groups, Picker), After(EndedIn(step)))
  {
    assert Apply(e, step).rt.groups == TM.Running(e.rt.groups, step.world);
    TM.OfRoleRunning(e.rt.groups, step.world, Picker);
    RunningSame(TM.OfRole(e.rt.groups, Picker), step.world, After(EndedIn(step)));
  }

  lemma StoppingPickers(e: Engine, step: Step)
    requires Enabled(e, step) && step.Stop?
    ensures TM.OfRole(Apply(e, step).rt.groups, Picker)
            == if StopFails(e, step) then [] else TM.OfRole(e.rt.groups, Picker)
  {
    var role := RoleAt(e.pc);
    assert Apply(e, step).rt.groups == Stopped(e.rt, role, step.world).groups;
    if !StopFails(e, step) {
      TM.StopOkSplits(e.rt.groups, role, step.world);
      TM.OfRoleWithout(e.rt.groups, role, Picker);
    }
  }

  lemma DetachingPickers(e: Engine, step: Step)
    requires Enabled(e, step) && step.Detach?
    ensures TM.OfRole(Apply(e, step).rt.groups, Picker) == TM.OfRole(e.rt.groups, Picker)
  {
    assert Apply(e, step).rt.groups == TM.Without(e.rt.groups, RoleAt(e.pc));
    TM.OfRoleWithout(e.rt.groups, RoleAt(e.pc), Picker);
  }

  lemma InstallingPickers(e: Engine)
    requires Enabled(e, InstallPending)
    ensures TM.OfRole(Apply(e, InstallPending).rt.groups, Picker) == TM.OfRole(e.rt.groups, Picker)
  {
    if e.pending.Some? {
      var added := NewGroups(e.pending.value);
      assert Apply(e, InstallPending).rt.groups == e.rt.groups + added;
      TM.OfRoleAppend(e.rt.groups, added, Picker);
      NewGroupsOrdered(e.pending.value);
      NoneIsEmpty(added, Picker);
    }
  }

  lemma QuietPickers(e: Engine, step: Step)
    requires Enabled(e, step) && (step.Begin? || step.Wait?)
    ensures Apply(e, step).rt.groups == e.rt.groups
  {
  }

  lemma PickerStep(e: Engine, step: Step)
    requires Enabled(e, step)
    ensures TM.OfRole(Apply(e, step).rt.groups, Picker)
            == if StopFails(e, step) then [] else TM.Running(TM.OfRole(e.rt.groups, Picker), After(EndedIn(step)))
  {
    if step.Isolate? || step.Prune? || step.Resume? {
      PruningPickers(e, step);
    } else {
      TM.RunningAll(TM.OfRole(e.rt.groups, Picker), After({}));
      if step.Stop? {
        StoppingPickers(e, step);
      } else if step.Detach? {
        DetachingPickers(e, step);
      } else if step.InstallPending? {
        InstallingPickers(e);
      } else {
        QuietPickers(e, step);
      }
    }
  }

  /**
   * The pickers after any run of reloads: none if the stop of some role failed on the way, otherwise
   * those that were there, in order, except the ones a prune saw ended.
   */
  lemma {:induction false} PickersAfter(e: Engine, t: Engine, steps: seq<Step>)
    requires Reachable(e, t, steps)
    ensures TM.OfRole(t.rt.groups, Picker)
            == if AnyStopFails(e, steps) then []
               else TM.Running(TM.OfRole(e.rt.groups, Picker), After(EndedOn(steps)))
    decreases |steps|
  {
    var pickers := TM.OfRole(e.rt.groups, Picker);
    if steps == [] {
      TM.RunningAll(pickers, After({}));
    } else {
      PickerStep(e, steps[0]);
      PickersAfter(Apply(e, steps[0]), t, steps[1..]);
      RunningTwice(pickers, EndedIn(steps[0]), EndedOn(steps[1..]));
      RunningNone(After(EndedOn(steps[1..])));
    }
  }

  /** A running picker survives a run of reloads if and only if no stop of the run failed. */
  lemma PickerSurvivesIff(e: Engine, t: Engine, steps: seq<Step>, picker: Group)
    requires Reachable(e, t, steps) && picker in e.rt.groups && picker.role.Picker? && picker.id !in EndedOn(steps)
    ensures picker in t.rt.groups <==> !AnyStopFails(e, steps)
  {
    PickersAfter(e, t, steps);
    TM.MemberOfRole(e.rt.groups, Picker, picker);
    TM.MemberOfRole(t.rt.groups, Picker, picker);
    TM.MemberOfRest(TM.OfRole(e.rt.groups, Picker), Parser, After(EndedOn(steps)), picker);
  }

  lemma PickerNeverReturns(e: Engine, t: Engine, steps: seq<Step>)
    requires Reachable(e, t, steps) && NoneOf(e.rt.groups, Picker)
    ensures NoneOf(t.rt.groups, Picker)
  {
    PickersAfter(e, t, steps);
    NoneIsEmpty(e.rt.groups, Picker);
    NoneIsEmpty(t.rt.groups, Picker);
    RunningNone(After(EndedOn(steps)));
  }

  lemma NoPickerStep(e: Engine, step: Step)
    requires Enabled(e, step) && NoneOf(e.rt.groups, Picker)
    ensures NoneOf(Apply(e, step).rt.groups, Picker)
  {
    PickerStep(e, step);
    NoneIsEmpty(e.rt.groups, Picker);
    NoneIsEmpty(Apply(e, step).rt.groups, Picker);
    RunningNone(After(EndedIn(step)));
  }

  /** A maintainer that cannot be joined costs the engine every group, the picker for good. */
  lemma FailedMaintainerCostsPicker(e: Engine, w: World, t: Engine, steps: seq<Step>)
    requires e.pc.StopMaintainer? && !TM.StopOk(e.rt.groups, Maintainer, w)
    requires Reachable(Apply(e, Stop(w)), t, steps)
    ensures Apply(e, Stop(w)).rt.groups == [] && NoneOf(t.rt.groups, Picker)
  {
    StopStepLoses(e, Stop(w));
    PickerNeverReturns(Apply(e, Stop(w)), t, steps);
  }

  /** With the old epoch drained, its maintainer could not be joined. */
  ghost predicate MaintainerStuck(e: Engine, steps: seq<Step>)
    decreases |steps|
  {
    && steps != [] && Enabled(e, steps[0])
    && ((e.pc.StopMaintainer? && StopFails(e, steps[0])) || MaintainerStuck(Apply(e, steps[0]), steps[1..]))
  }

  lemma {:induction false} SuccessStops(e: Engine, t: Engine, steps: seq<Step>)
    requires WithinOne(e, t, steps) && t.pc.Idle? && t.outcome.Some? && t.outcome.value.Done?
    ensures AnyStopFails(e, steps) <==> MaintainerStuck(e, steps)
    decreases |steps|
  {
    if steps == [] {
      return;
    }
    OtherFailureEnds(e, steps[0]);
    if |steps| > 1 {
      SuccessStops(Apply(e, steps[0]), t, steps[1..]);
    } else {
      assert steps[1..] == [];
    }
  }

  /** A reload that reports success keeps a running picker if and only if the maintainer could be joined. */
  lemma SuccessKeepsPickerIff(e: Engine, t: Engine, steps: seq<Step>, picker: Group)
    requires e.pc.Idle? && WithinOne(e, t, steps)
    requires t.pc.Idle? && t.outcome.Some? && t.outcome.value.Done?
    requires picker in e.rt.groups && picker.role.Picker? && picker.id !in EndedOn(steps)
    ensures picker in t.rt.groups <==> !MaintainerStuck(e, steps)
  {
    WithinIsReachable(e, t, steps);
    PickerSurvivesIff(e, t, steps, picker);
    SuccessStops(e, t, steps);
  }

  // -------------------------------------------------- a run that loses the picker

  /** A run to a reported success with no picker left. */
  ghost predicate LosingRun(e: Engine, t: Engine, steps: seq<Step>) {
    Reachable(e, t, steps) && t.pc.Idle? && t.outcome == Some(Done(true)) && NoneOf(t.rt.groups, Picker)
  }

  lemma StepBefore(e: Engine, step: Step, t: Engine, steps: seq<Step>)
    requires Enabled(e, step) && LosingRun(Apply(e, step), t, steps)
    ensures LosingRun(e, t, [step] + steps)
  {
    Prepend(e, t, step, steps);
  }

  /** An engine without groups, on its way to install the pending epoch. */
  predicate Bare(e: Engine, pc: Pc) {
    e.pc == pc && e.rt.groups == [] && e.rt.detached == [] && e.pending.Some? && e.forced
  }

  lemma ResumeRun(e: Engine) returns (t: Engine, steps: seq<Step>)
    requires e.pc.Resuming? && e.forced && NoneOf(e.rt.groups, Picker) && e.rt.detached == []
    ensures LosingRun(e, t, steps)
  {
    var step := Resume(TM.CALM, true);
    NoPickerStep(e, step);
    assert SweepOk(e.rt.detached, TM.CALM);
    t := Apply(e, step);
    assert Reachable(t, t, []);
    steps := [step] + [];
    StepBefore(e, step, t, []);
  }

  lemma InstallRun(e: Engine) returns (t: Engine, steps: seq<Step>)
    requires Bare(e, Installing)
    ensures LosingRun(e, t, steps)
  {
    NoPickerStep(e, InstallPending);
    t, steps := ResumeRun(Apply(e, InstallPending));
    StepBefore(e, InstallPending, t, steps);
    steps := [InstallPending] + steps;
  }

  lemma PruneRun(e: Engine) returns (t: Engine, steps: seq<Step>)
    requires Bare(e, PruneForced)
    ensures LosingRun(e, t, steps)
  {
    t, steps := InstallRun(Apply(e, Prune(TM.CALM)));
    StepBefore(e, Prune(TM.CALM), t, steps);
    steps := [Prune(TM.CALM)] + steps;
  }

  function StepsLeft(pc: Pc): nat {
    match pc
    case ForceParser => 4
    case ForceSink => 3
    case ForceInfra => 2
    case ForceMaintainer => 1
    case _ => 0
  }

  /** With no group left, the forced branch runs through. */
  lemma ForceRun(e: Engine) returns (t: Engine, steps: seq<Step>)
    requires Bare(e, e.pc) && StepsLeft(e.pc) > 0
    ensures LosingRun(e, t, steps)
    decreases StepsLeft(e.pc)
  {
    var next := Apply(e, Stop(TM.CALM));
    if StepsLeft(e.pc) == 1 {
      t, steps := PruneRun(next);
    } else {
      t, steps := ForceRun(next);
    }
    StepBefore(e, Stop(TM.CALM), t, steps);
    steps := [Stop(TM.CALM)] + steps;
  }

  lemma StuckRun(e: Engine, w: World) returns (t: Engine, steps: seq<Step>)
    requires e.pc.StopMaintainer? && e.pending.Some? && e.rt.detached == []
    requires !TM.StopOk(e.rt.groups, Maintainer, w)
    ensures LosingRun(e, t, steps)
  {
    t, steps := ForceRun(Apply(e, Stop(w)));
    StepBefore(e, Stop(w), t, steps);
    steps := [Stop(w)] + steps;
  }

  lemma DrainedRun(e: Engine, w: World) returns (t: Engine, steps: seq<Step>)
    requires e.pc.Draining? && e.pending.Some? && e.rt.detached == [] && RD.Quiesced(e.rt.tracker)
    requires !TM.StopOk(e.rt.groups, Maintainer, w)
    ensures LosingRun(e, t, steps)
  {
    t, steps := StuckRun(Apply(e, Wait(TimedOut)), w);
    StepBefore(e, Wait(TimedOut), t, steps);
    steps := [Wait(TimedOut)] + steps;
  }

  function Pending(c: RD.Counters): nat { c.parser + c.sink + c.infra }

  /** A worker of a role still pending reports that it is drained. */
  function NextDrained(c: RD.Counters): RD.DrainEvent {
    RD.DrainEvent(c.epoch, if c.parser > 0 then Parser else if c.sink > 0 then Sink else Infra, "", RD.Drained)
  }

  lemma DrainedCounts(c: RD.Counters)
    requires !RD.Quiesced(c)
    ensures RD.Judge(c, NextDrained(c)).Counted? && Pending(RD.CountDown(c, NextDrained(c))) == Pending(c) - 1
  {
  }

  /** Every pending worker reports in turn. */
  lemma DrainRun(e: Engine, w: World) returns (t: Engine, steps: seq<Step>)
    requires e.pc.Draining? && e.pending.Some? && e.rt.detached == []
    requires !TM.StopOk(e.rt.groups, Maintainer, w)
    ensures LosingRun(e, t, steps)
    decreases Pending(e.rt.tracker)
  {
    if RD.Quiesced(e.rt.tracker) {
      t, steps := DrainedRun(e, w);
    } else {
      var step := Wait(Event(NextDrained(e.rt.tracker)));
      DrainedCounts(e.rt.tracker);
      t, steps := DrainRun(Apply(e, step), w);
      StepBefore(e, step, t, steps);
      steps := [step] + steps;
    }
  }

  lemma IsolateRun(e: Engine, w: World) returns (t: Engine, steps: seq<Step>)
    requires e.pc.Isolating? && e.pending.Some? && e.rt.detached == []
    requires !TM.StopOk(e.rt.groups, Maintainer, w)
    ensures LosingRun(e, t, steps)
  {
    TM.RunningAll(e.rt.groups, TM.CALM);
    assert SweepOk(e.rt.detached, TM.CALM);
    var step := Isolate(TM.CALM, true);
    t, steps := DrainRun(Apply(e, step), w);
    StepBefore(e, step, t, steps);
    steps := [step] + steps;
  }

  /**
   * From any idle engine whose maintainer cannot be joined, however many workers it has, there is a
   * reload in which every worker drains, which reports success and leaves the engine without its
   * picker.
   */
  lemma SuccessWithoutPicker(e: Engine, w: World) returns (t: Engine, steps: seq<Step>)
    requires e.pc.Idle? && e.rt.detached == [] && !TM.StopOk(e.rt.groups, Maintainer, w)
    ensures Reachable(e, t, steps) && t.pc.Idle? && t.outcome == Some(Done(true)) && NoneOf(t.rt.groups, Picker)
  {
    var step := Begin(true, 0, 0, None, 0, [], 0, 0);
    t, steps := IsolateRun(Apply(e, step), w);
    StepBefore(e, step, t, steps);
    steps := [step] + steps;
  }

  lemma StartedMaintainer(e: Engine) returns (i: nat)
    requires Initial(e)
    ensures i < |e.rt.groups| && e.rt.groups[i].role.Maintainer?
  {
    var outer, first, picker :| StartList(e.rt.groups, outer, first, picker);
    i := |outer| + if first.sink.Some? then 2 else 1;
    assert e.rt.groups[i] == NewGroups(first)[i - |outer|];
  }

  /** Every engine can get there in its first reload. */
  lemma AnyEngineCanLosePicker(e: Engine) returns (t: Engine, steps: seq<Step>)
    requires Initial(e)
    ensures Reachable(e, t, steps) && t.pc.Idle? && t.outcome == Some(Done(true)) && NoneOf(t.rt.groups, Picker)
  {
    var i := StartedMaintainer(e);
    var w := TM.World({}, {e.rt.groups[i].id}, 0);
    assert !TM.StopOk(e.rt.groups, Maintainer, w);
    t, steps := SuccessWithoutPicker(e, w);
  }
}

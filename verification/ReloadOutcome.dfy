/** How a reload ends, and what it has installed, from the steps it went through. */
module ReloadOutcome {
  import opened Common
  import opened Roles
  import TM = TaskManager
  import PR = ParseRouter
  import RD = ReloadDrain
  import opened EngineRuntime
  import opened ReloadInvariant

  // ----------------------------------------------------------------- guards

  /** A worker of the epoch that is still awaited has aborted. */
  predicate Aborts(c: RD.Counters, event: RD.DrainEvent) {
    event.epoch == c.epoch && event.outcome.Aborted? &&
    ((event.role.Parser? && c.parser > 0) || (event.role.Sink? && c.sink > 0) || (event.role.Infra? && c.infra > 0))
  }

  /** Some group of the role cannot be joined. */
  predicate CannotJoin(gs: seq<Group>, role: TaskRole, w: World) {
    exists i :: 0 <= i < |gs| && gs[i].role == role && gs[i].id in w.broken
  }

  /** An overdue detached group that is still running cannot be joined. */
  predicate CannotSweep(ds: seq<Detached>, w: World) {
    exists i :: 0 <= i < |ds| && ds[i].group.id !in w.finished && ds[i].deadline <= w.now && ds[i].group.id in w.broken
  }

  /** The step that gives the drain up: a failed wait, an aborted worker, or a join that fails afterwards. */
  predicate GivesUp(e: Engine, step: Step) {
    match step
    case Wait(input) => !RD.Quiesced(e.rt.tracker) && (input.Event? ==> Aborts(e.rt.tracker, input.event))
    case Stop(w) => e.pc.StopMaintainer? && CannotJoin(e.rt.groups, Maintainer, w)
    case Prune(w) => e.pc.PruneRetired? && CannotSweep(e.rt.detached, w)
    case _ => false
  }

  /** The step that fails the reload: loading, a refused command, or a join that fails by force. */
  predicate FailsBy(e: Engine, step: Step)
    requires Enabled(e, step)
  {
    match step
    case Begin(loaded, _, _, _, _, _, _, _) => !loaded
    case Isolate(w, commandOk) => !commandOk || CannotSweep(e.rt.detached, w)
    case Stop(w) => !e.pc.StopMaintainer? && CannotJoin(e.rt.groups, RoleAt(e.pc), w)
    case Prune(w) => e.pc.PruneForced? && CannotSweep(e.rt.detached, w)
    case Resume(w, commandOk) => !commandOk || CannotSweep(e.rt.detached, w)
    case _ => false
  }

  lemma SweepGuard(ds: seq<Detached>, w: World)
    ensures CannotSweep(ds, w) <==> !SweepOk(ds, w)
  {
    if i :| 0 <= i < |ds| && Sticks(ds[i], w) {
      assert ds[i].group.id in w.broken;
    }
  }

  /** One step: it fails the reload, ends it, or leaves it under way. */
  lemma StepOutcome(e: Engine, step: Step)
    requires Enabled(e, step)
    ensures var t := Apply(e, step);
            if FailsBy(e, step) then t.pc.Idle? && t.outcome == Some(Failed)
            else if step.Resume? then t.pc.Idle? && t.outcome == Some(Done(e.forced))
            else
              && !t.pc.Idle?
              && t.forced == if step.Begin? then false else e.forced || GivesUp(e, step)
    ensures GivesUp(e, step) ==> Apply(e, step).pc.ForceParser?
  {
    if step.Isolate? || step.Prune? || step.Resume? {
      SweepGuard(e.rt.detached, step.world);
    }
  }

  // ------------------------------------------------------------- one reload

  predicate SomeFails(start: Engine, steps: seq<Step>)
    decreases |steps|
  {
    steps != [] && Enabled(start, steps[0]) &&
    (FailsBy(start, steps[0]) || SomeFails(Apply(start, steps[0]), steps[1..]))
  }

  predicate SomeGivesUp(start: Engine, steps: seq<Step>)
    decreases |steps|
  {
    steps != [] && Enabled(start, steps[0]) &&
    (GivesUp(start, steps[0]) || SomeGivesUp(Apply(start, steps[0]), steps[1..]))
  }

  lemma {:induction false} RestOutcome(s: Engine, e: Engine, steps: seq<Step>)
    requires WithinOne(s, e, steps) && !s.pc.Idle? && e.pc.Idle?
    ensures e.outcome == Some(if SomeFails(s, steps) then Failed else Done(s.forced || SomeGivesUp(s, steps)))
    decreases |steps|
  {
    StepOutcome(s, steps[0]);
    if |steps| == 1 {
      assert steps[1..] == [];
    } else {
      RestOutcome(Apply(s, steps[0]), e, steps[1..]);
    }
  }

  /**
   * The outcome of a whole reload: failed exactly if some step of it failed, and otherwise forced
   * exactly if some step gave the drain up.
   */
  lemma OutcomeIs(start: Engine, e: Engine, steps: seq<Step>)
    requires WithinOne(start, e, steps) && steps != [] && start.pc.Idle? && e.pc.Idle?
    ensures e.outcome == Some(if SomeFails(start, steps) then Failed else Done(SomeGivesUp(start, steps)))
  {
    StepOutcome(start, steps[0]);
    if |steps| == 1 {
      assert steps[1..] == [];
    } else {
      RestOutcome(Apply(start, steps[0]), e, steps[1..]);
    }
  }

  // ------------------------------------------------- what has been installed

  /** The latest epoch that could be started. */
  function Requested(steps: seq<Step>, before: Option<Step>): Option<Step>
    decreases |steps|
  {
    if steps == [] then before
    else Requested(steps[1..], if steps[0].Begin? && steps[0].loaded then Some(steps[0]) else before)
  }

  predicate WaitsFor(e: Engine, b: Step) {
    b.Begin? &&
    e.pending == Some(ProcessingSet(b.parser, b.infra, b.sink, b.maintainer, b.senders,
                                    RD.Counters(e.rt.tracker.epoch + 1, |b.senders|, b.sinkTotal, b.infraTotal)))
  }

  /** The router feeds the epoch's parsers, and the tracker counts its workers. */
  predicate Serves(e: Engine, b: Step) {
    && b.Begin? && e.rt.router.senders == b.senders && !e.rt.router.reloading
    && e.rt.tracker == RD.Counters(1 + e.installs, |b.senders|, b.sinkTotal, b.infraTotal)
  }

  /** The epoch's groups are registered. */
  predicate Registered(e: Engine, b: Step) {
    && b.Begin?
    && TM.Group(b.parser, Parser, e.rt.tracker.epoch) in e.rt.groups
    && TM.Group(b.infra, Infra, e.rt.tracker.epoch) in e.rt.groups
    && TM.Group(b.maintainer, Maintainer, e.rt.tracker.epoch) in e.rt.groups
    && (b.sink.Some? ==> TM.Group(b.sink.value, Sink, e.rt.tracker.epoch) in e.rt.groups)
  }

  predicate Succeeded(e: Engine) { e.pc.Idle? && e.outcome.Some? && e.outcome.value.Done? }

  predicate Follows(e: Engine, last: Option<Step>) {
    && (e.pending.Some? ==> last.Some? && WaitsFor(e, last.value))
    && (e.pc.Resuming? ==> last.Some? && Serves(e, last.value) && Registered(e, last.value))
    && (Succeeded(e) ==> last.Some? && Serves(e, last.value))
  }

  lemma InstallFollows(e: Engine, last: Option<Step>)
    requires Inv(e) && e.pc.Installing? && Follows(e, last)
    ensures Follows(Apply(e, InstallPending), last)
  {
    var t, p := Apply(e, InstallPending), e.pending.value;
    assert forall g :: g in NewGroups(p) ==> g in t.rt.groups;
  }

  lemma PassingFollows(e: Engine, step: Step, last: Option<Step>)
    requires Inv(e) && Enabled(e, step) && Follows(e, last) && !step.Begin? && !step.InstallPending? && !step.Resume?
    ensures Follows(Apply(e, step), last)
  {
    var t := Apply(e, step);
    assert t.pending.Some? ==> t.pending == e.pending && t.rt.tracker.epoch == e.rt.tracker.epoch;
    assert !t.pc.Resuming? && !Succeeded(t);
  }

  lemma ResumeFollows(e: Engine, w: World, commandOk: bool, last: Option<Step>)
    requires Inv(e) && e.pc.Resuming? && Follows(e, last)
    ensures Follows(Apply(e, Resume(w, commandOk)), last)
  {
    var t := Apply(e, Resume(w, commandOk));
    assert t.rt.router == e.rt.router && t.rt.tracker == e.rt.tracker && t.installs == e.installs;
  }

  lemma StepFollows(e: Engine, step: Step, last: Option<Step>)
    requires Inv(e) && Enabled(e, step) && Follows(e, last)
    ensures Follows(Apply(e, step), if step.Begin? && step.loaded then Some(step) else last)
  {
    if step.InstallPending? {
      InstallFollows(e, last);
    } else if step.Resume? {
      ResumeFollows(e, step.world, step.commandOk, last);
    } else if !step.Begin? {
      PassingFollows(e, step, last);
    }
  }

  lemma {:induction false} RunFollows(start: Engine, e: Engine, steps: seq<Step>, last: Option<Step>)
    requires Inv(start) && Follows(start, last) && Reachable(start, e, steps)
    ensures Follows(e, Requested(steps, last))
    decreases |steps|
  {
    if steps != [] {
      StepFollows(start, steps[0], last);
      StepKeepsInv(start, steps[0]);
      RunFollows(Apply(start, steps[0]), e, steps[1..], if steps[0].Begin? && steps[0].loaded then Some(steps[0]) else last);
    }
  }

  /**
   * What has been asked for is what is installed.  Over any run of reloads: after an installation the
   * router feeds exactly the parsers of the latest epoch that was started, the tracker counts its
   * workers, and its groups are registered; router and tracker stay so after a reload that succeeded.
   */
  lemma InstalledIsRequested(start: Engine, e: Engine, steps: seq<Step>)
    requires Initial(start) && Reachable(start, e, steps) && (e.pc.Resuming? || Succeeded(e))
    ensures var last := Requested(steps, None);
            last.Some? && Serves(e, last.value) && (e.pc.Resuming? ==> Registered(e, last.value))
  {
    InitialInv(start);
    RunFollows(start, e, steps, None);
  }

  /**
   * The order in which an epoch is taken down, by force or by detaching: parsers before sinks, sinks
   * before infra sinks; the maintainer last by force and first otherwise.  Nothing is installed before
   * all of it is gone from the manager.
   */
  lemma TakenDownInOrder(start: Engine, e: Engine, steps: seq<Step>)
    requires Initial(start) && Reachable(start, e, steps)
    ensures Stopping(e.pc) || Detaching(e.pc) ==>
              && (RoleAt(e.pc).Sink? ==> NoneOf(e.rt.groups, Parser))
              && (RoleAt(e.pc).Infra? ==> NoneOf(e.rt.groups, Parser) && NoneOf(e.rt.groups, Sink))
              && (RoleAt(e.pc).Maintainer? && e.forced ==>
                    NoneOf(e.rt.groups, Parser) && NoneOf(e.rt.groups, Sink) && NoneOf(e.rt.groups, Infra))
    ensures Detaching(e.pc) ==> NoneOf(e.rt.groups, Maintainer)
    ensures e.pc.Installing? ==> NoProcessing(e.rt.groups)
  {
    AlwaysInv(start, e, steps);
    assert forall role :: Cleared(e.pc, role) ==> NoneOf(e.rt.groups, role);
    if e.pc.Installing? {
      ClearedIsNoProcessing(e);
    }
    if e.pc.StopMaintainer? {
      NotForcedYet(start, e, steps);
    }
  }

  /** A quiesced wait and what follows it are not marked as forced. */
  predicate Graceful(pc: Pc) {
    pc.Isolating? || pc.Draining? || pc.StopMaintainer? || Detaching(pc) || pc.PruneRetired?
  }

  predicate GraceUnforced(e: Engine) { Graceful(e.pc) ==> !e.forced }

  lemma NextIsGraceful(pc: Pc)
    requires Stopping(pc) || Detaching(pc)
    ensures Graceful(NextPc(pc)) ==> Graceful(pc)
    ensures !Graceful(ForceParser) && !Graceful(Idle)
  {
  }

  lemma StopComesAfterGrace(e: Engine, w: World)
    requires Enabled(e, Stop(w)) && Graceful(Apply(e, Stop(w)).pc)
    ensures Graceful(e.pc)
  {
    NextIsGraceful(e.pc);
    assert Apply(e, Stop(w)).pc in {NextPc(e.pc), ForceParser, Idle};
  }

  lemma DetachComesAfterGrace(e: Engine, deadline: nat)
    requires Enabled(e, Detach(deadline)) && Graceful(Apply(e, Detach(deadline)).pc)
    ensures Graceful(e.pc)
  {
  }

  lemma PruneEndsGrace(e: Engine, w: World)
    requires Enabled(e, Prune(w))
    ensures !Graceful(Apply(e, Prune(w)).pc)
  {
    assert Apply(e, Prune(w)).pc in {Installing, ForceParser, Idle};
  }

  lemma InstallEndsGrace(e: Engine)
    requires Enabled(e, InstallPending)
    ensures !Graceful(Apply(e, InstallPending).pc)
  {
  }

  lemma ResumeEndsGrace(e: Engine, w: World, commandOk: bool)
    requires Enabled(e, Resume(w, commandOk))
    ensures !Graceful(Apply(e, Resume(w, commandOk)).pc)
  {
  }

  /** The graceful branch is entered at the start of a reload only. */
  lemma GraceComesFirst(e: Engine, step: Step)
    requires Enabled(e, step) && Graceful(Apply(e, step).pc) && !step.Begin?
    ensures Graceful(e.pc)
  {
    match step
    case Isolate(_, _) =>
    case Wait(_) =>
    case Stop(w) => StopComesAfterGrace(e, w);
    case Detach(deadline) => DetachComesAfterGrace(e, deadline);
    case Prune(w) => PruneEndsGrace(e, w);
    case InstallPending => InstallEndsGrace(e);
    case Resume(w, commandOk) => ResumeEndsGrace(e, w, commandOk);
  }

  lemma UnforcedStep(e: Engine, step: Step)
    requires Enabled(e, step) && GraceUnforced(e)
    ensures GraceUnforced(Apply(e, step))
  {
    if Graceful(Apply(e, step).pc) {
      StepOutcome(e, step);
      if !step.Begin? {
        GraceComesFirst(e, step);
      }
    }
  }

  lemma {:induction false} RunUnforced(start: Engine, e: Engine, steps: seq<Step>)
    requires GraceUnforced(start) && Reachable(start, e, steps)
    ensures GraceUnforced(e)
    decreases |steps|
  {
    if steps != [] {
      UnforcedStep(start, steps[0]);
      RunUnforced(Apply(start, steps[0]), e, steps[1..]);
    }
  }

  lemma NotForcedYet(start: Engine, e: Engine, steps: seq<Step>)
    requires Initial(start) && Reachable(start, e, steps)
    ensures GraceUnforced(e)
  {
    RunUnforced(start, e, steps);
  }
}

/**
 * Reloads over live workers: the reload machine, and beside it the workers of the active epoch whose
 * drain events it waits for.  An epoch that is replaced without force has handed on everything.
 */
module GracefulReload {
  import opened Common
  import opened Roles
  import TM = TaskManager
  import RD = ReloadDrain
  import PL = ParserLoop
  import GD = GracefulDrain
  import ER = EngineRuntime
  import RC = ReloadConsequences

  /** `told`: the parsers of the active epoch have been sent a stop command. */
  datatype System = System(engine: ER.Engine, epoch: GD.Epoch, told: bool)

  /** The wait takes the oldest event from the epoch's channel; an installation brings new workers. */
  datatype Step =
    | EngineStep(step: ER.Step)
    | TakeEvent
    | InstallEpoch(next: GD.Epoch)
    | Work(work: GD.Step)

  predicate Enabled(s: System, step: Step) {
    match step
    case EngineStep(t) =>
      ER.Enabled(s.engine, t) && !t.InstallPending? && (t.Wait? && t.input.Event? ==> RD.Quiesced(s.engine.rt.tracker))
    case TakeEvent =>
      s.engine.pc.Draining? && !RD.Quiesced(s.engine.rt.tracker) && GD.Enabled(s.epoch, GD.Receive)
    case InstallEpoch(next) =>
      && s.engine.pc.Installing? && s.engine.pending.Some?
      && GD.Initial(next) && next.drain.counters == s.engine.pending.value.totals
    case Work(t) => !t.Receive? && GD.Enabled(s.epoch, t) && (t.ParserStep? && t.work.Halt? ==> s.told)
  }

  /** The step commands the parsers of the active epoch to stop. */
  predicate StopsParsers(e: ER.Engine, step: ER.Step) { step.Stop? && e.pc.ForceParser? }

  function Apply(s: System, step: Step): System
    requires Enabled(s, step)
  {
    match step
    case EngineStep(t) => s.(engine := ER.Apply(s.engine, t), told := s.told || StopsParsers(s.engine, t))
    case TakeEvent =>
      s.(engine := ER.Apply(s.engine, ER.Wait(ER.Event(s.epoch.drain.queue[0].1))), epoch := GD.Apply(s.epoch, GD.Receive))
    case InstallEpoch(next) => System(ER.Apply(s.engine, ER.InstallPending), next, false)
    case Work(t) => s.(epoch := GD.Apply(s.epoch, t))
  }

  ghost predicate Initial(s: System) {
    ER.Initial(s.engine) && GD.Initial(s.epoch) && s.engine.rt.tracker == s.epoch.drain.counters && !s.told
  }

  ghost predicate Reachable(start: System, s: System, steps: seq<Step>)
    decreases |steps|
  {
    if steps == [] then s == start
    else Enabled(start, steps[0]) && Reachable(Apply(start, steps[0]), s, steps[1..])
  }

  /** Parsers stop by command only when commanded. */
  predicate HaltsAreTold(s: System) {
    forall i :: 0 <= i < |s.epoch.parsers| && s.epoch.parsers[i].halted ==> s.told
  }

  ghost predicate Inv(s: System) {
    && GD.Inv(s.epoch) && s.engine.rt.tracker == s.epoch.drain.counters
    && RC.GraceInv(s.engine) && HaltsAreTold(s)
  }

  lemma EngineKeepsTracker(e: ER.Engine, step: ER.Step)
    requires ER.Enabled(e, step) && !step.InstallPending? && (step.Wait? && step.input.Event? ==> RD.Quiesced(e.rt.tracker))
    ensures ER.Apply(e, step).rt.tracker == e.rt.tracker
  {
  }

  lemma EngineKeepsInv(s: System, step: ER.Step)
    requires Inv(s) && Enabled(s, EngineStep(step))
    ensures Inv(Apply(s, EngineStep(step)))
  {
    EngineKeepsTracker(s.engine, step);
    RC.StepKeepsGrace(s.engine, step);
  }

  lemma TakeKeepsInv(s: System)
    requires Inv(s) && Enabled(s, TakeEvent)
    ensures Inv(Apply(s, TakeEvent))
  {
    var input := ER.Event(s.epoch.drain.queue[0].1);
    RC.WaitKeepsGrace(s.engine, input);
    GD.ReceiveKeepsInv(s.epoch);
    WaitCounts(s.engine, s.epoch.drain.queue[0].1);
  }

  /** The wait counts an event exactly as the epoch's tracker does. */
  lemma WaitCounts(e: ER.Engine, event: RD.DrainEvent)
    requires e.pc.Draining? && !RD.Quiesced(e.rt.tracker)
    ensures ER.Apply(e, ER.Wait(ER.Event(event))).rt.tracker == RD.CountDown(e.rt.tracker, event)
  {
  }

  lemma InstallKeepsInv(s: System, next: GD.Epoch)
    requires Inv(s) && Enabled(s, InstallEpoch(next))
    ensures Inv(Apply(s, InstallEpoch(next)))
  {
    RC.InstallKeepsGrace(s.engine);
    GD.InitialInv(next);
    assert ER.Apply(s.engine, ER.InstallPending).rt.tracker == s.engine.pending.value.totals;
    forall i | 0 <= i < |next.parsers| ensures !next.parsers[i].halted {
      assert PL.Initial(next.parsers[i]);
    }
  }

  lemma WorkKeepsInv(s: System, step: GD.Step)
    requires Inv(s) && Enabled(s, Work(step))
    ensures Inv(Apply(s, Work(step)))
  {
    GD.StepKeepsInv(s.epoch, step);
    WorkKeepsCounters(s.epoch, step);
  }

  lemma WorkKeepsCounters(e: GD.Epoch, step: GD.Step)
    requires GD.Enabled(e, step) && !step.Receive?
    ensures GD.Apply(e, step).drain.counters == e.drain.counters
  {
  }

  lemma StepKeepsInv(s: System, step: Step)
    requires Inv(s) && Enabled(s, step)
    ensures Inv(Apply(s, step))
  {
    match step
    case EngineStep(t) => EngineKeepsInv(s, t);
    case TakeEvent => TakeKeepsInv(s);
    case InstallEpoch(next) => InstallKeepsInv(s, next);
    case Work(t) => WorkKeepsInv(s, t);
  }

  lemma {:induction false} ReachableInv(start: System, s: System, steps: seq<Step>)
    requires Inv(start) && Reachable(start, s, steps)
    ensures Inv(s)
    decreases |steps|
  {
    if steps != [] {
      StepKeepsInv(start, steps[0]);
      ReachableInv(Apply(start, steps[0]), s, steps[1..]);
    }
  }

  lemma InitialInv(s: System)
    requires Initial(s)
    ensures Inv(s)
  {
    GD.InitialInv(s.epoch);
    forall i | 0 <= i < |s.epoch.parsers| ensures !s.epoch.parsers[i].halted {
      assert PL.Initial(s.epoch.parsers[i]);
    }
  }

  /** Everything ever sent to the epoch's parsers and sinks has been handed on. */
  predicate NothingLeft(e: GD.Epoch) {
    && GD.Sized(e)
    && forall i :: 0 <= i < |e.sinks| ==>
         && (GD.SinkRole(e.drain.workers[i].role) ==> GD.Emptied(e.sinks[i]))
         && (e.drain.workers[i].role.Parser? ==> e.parsers[i].channel.handed == e.parsers[i].channel.sent)
  }

  /** The same of the sinks alone. */
  predicate SinksEmptied(e: GD.Epoch) {
    GD.Sized(e) && forall i :: 0 <= i < |e.sinks| && GD.SinkRole(e.drain.workers[i].role) ==> GD.Emptied(e.sinks[i])
  }

  /** A stop command reaches a parser that has batches queued. */
  predicate Early(s: System, step: Step)
    requires Enabled(s, step)
  {
    step.Work? && step.work.ParserStep? && PL.Early(s.epoch.parsers[step.work.i], step.work.work)
  }

  /** Since the active epoch was installed, a stop command reached a parser that had batches queued. */
  ghost predicate HaltedEarly(s: System, steps: seq<Step>, before: bool)
    decreases |steps|
  {
    if steps == [] then before
    else
      && Enabled(s, steps[0])
      && HaltedEarly(Apply(s, steps[0]), steps[1..], !steps[0].InstallEpoch? && (before || Early(s, steps[0])))
  }

  /** Since the active epoch was installed, a reload stopped its parsers by force. */
  ghost predicate ForcedSince(s: System, steps: seq<Step>, before: bool)
    decreases |steps|
  {
    if steps == [] then before
    else
      var forces := steps[0].EngineStep? && steps[0].step.Stop? && s.engine.pc.ForceParser?;
      && Enabled(s, steps[0])
      && ForcedSince(Apply(s, steps[0]), steps[1..], !steps[0].InstallEpoch? && (before || forces))
  }

  lemma {:induction false} ToldIsForced(start: System, s: System, steps: seq<Step>)
    requires Reachable(start, s, steps)
    ensures s.told <==> ForcedSince(start, steps, start.told)
    decreases |steps|
  {
    if steps != [] {
      ToldIsForced(Apply(start, steps[0]), s, steps[1..]);
    }
  }

  /** Some parser of the epoch was stopped with batches queued. */
  predicate SomeCut(e: GD.Epoch)
    requires GD.Sized(e)
  {
    exists i :: 0 <= i < |e.parsers| && e.drain.workers[i].role.Parser? && PL.Cut(e.parsers[i])
  }

  lemma ReportKeepsRoles(d: RD.Epoch, i: nat, before: Option<RD.Outcome>, after: Option<RD.Outcome>)
    requires i < |d.workers| && d.workers[i].alive
    ensures var t := GD.Reported(d, i, before, after);
            |t.workers| == |d.workers| && forall j :: 0 <= j < |d.workers| ==> t.workers[j].role == d.workers[j].role
  {
  }

  lemma ParserWorkCuts(e: GD.Epoch, i: nat, work: PL.Step)
    requires GD.Inv(e) && GD.Enabled(e, GD.ParserStep(i, work))
    ensures GD.Sized(GD.Apply(e, GD.ParserStep(i, work)))
    ensures SomeCut(GD.Apply(e, GD.ParserStep(i, work))) <==> SomeCut(e) || PL.Early(e.parsers[i], work)
  {
    var t, w := GD.Apply(e, GD.ParserStep(i, work)), PL.Apply(e.parsers[i], work);
    assert GD.WorkerInv(e, i);
    PL.CutStep(e.parsers[i], work);
    ReportKeepsRoles(e.drain, i, e.parsers[i].report, w.report);
    if j :| 0 <= j < |e.parsers| && e.drain.workers[j].role.Parser? && PL.Cut(e.parsers[j]) {
      assert PL.Cut(t.parsers[j]);
    }
    if PL.Early(e.parsers[i], work) {
      assert PL.Cut(t.parsers[i]);
    }
    if j :| 0 <= j < |t.parsers| && t.drain.workers[j].role.Parser? && PL.Cut(t.parsers[j]) {
      assert j != i ==> PL.Cut(e.parsers[j]);
    }
  }

  lemma OtherWorkCuts(e: GD.Epoch, step: GD.Step)
    requires GD.Inv(e) && GD.Enabled(e, step) && !step.ParserStep?
    ensures GD.Sized(GD.Apply(e, step)) && (SomeCut(GD.Apply(e, step)) <==> SomeCut(e))
  {
    var t := GD.Apply(e, step);
    if step.SinkStep? {
      ReportKeepsRoles(e.drain, step.i, e.sinks[step.i].report, t.sinks[step.i].report);
    }
    assert t.parsers == e.parsers && forall j :: 0 <= j < |e.parsers| ==> t.drain.workers[j].role == e.drain.workers[j].role;
  }

  lemma FreshUncut(e: GD.Epoch)
    requires GD.Initial(e)
    ensures !SomeCut(e)
  {
    forall i | 0 <= i < |e.parsers| ensures !PL.Cut(e.parsers[i]) {
      assert PL.Initial(e.parsers[i]);
    }
  }

  lemma CutStep(s: System, step: Step)
    requires Inv(s) && Enabled(s, step)
    ensures GD.Sized(Apply(s, step).epoch)
    ensures SomeCut(Apply(s, step).epoch) <==> !step.InstallEpoch? && (SomeCut(s.epoch) || Early(s, step))
  {
    match step
    case EngineStep(_) =>
    case TakeEvent => OtherWorkCuts(s.epoch, GD.Receive);
    case InstallEpoch(next) => FreshUncut(next);
    case Work(t) =>
      if t.ParserStep? {
        ParserWorkCuts(s.epoch, t.i, t.work);
      } else {
        OtherWorkCuts(s.epoch, t);
      }
  }

  lemma {:induction false} CutRun(start: System, s: System, steps: seq<Step>)
    requires Inv(start) && Reachable(start, s, steps)
    ensures GD.Sized(s.epoch) && (SomeCut(s.epoch) <==> HaltedEarly(start, steps, SomeCut(start.epoch)))
    decreases |steps|
  {
    if steps != [] {
      StepKeepsInv(start, steps[0]);
      CutStep(start, steps[0]);
      CutRun(Apply(start, steps[0]), s, steps[1..]);
    }
  }

  lemma NothingLeftIff(e: GD.Epoch)
    requires GD.Inv(e) && RD.Quiesced(e.drain.counters)
    ensures SinksEmptied(e) && (NothingLeft(e) <==> !SomeCut(e))
  {
    forall i | 0 <= i < |e.sinks| && RD.Tracked(e.drain.workers[i].role) ensures GD.Cleared(e, i) {
      GD.QuiescedWorker(e, i);
    }
    forall i | 0 <= i < |e.parsers| && e.drain.workers[i].role.Parser?
      ensures e.parsers[i].channel.handed == e.parsers[i].channel.sent <==> !PL.Cut(e.parsers[i])
    {
      assert GD.WorkerInv(e, i) && GD.Cleared(e, i);
      PL.DrainedParser(e.parsers[i]);
    }
  }

  /**
   * At every installation without force, in any run of reloads over any interleaving of the workers:
   * every package ever sent to a sink of the old epoch has been handed on; and so has every batch sent
   * to its parsers, if and only if no stop command has reached a parser of the epoch while it had
   * batches queued.  That takes an earlier reload of the same epoch that stopped the parsers by force
   * and then failed.
   */
  lemma UnforcedLosesNothingIff(start: System, s: System, steps: seq<Step>)
    requires Initial(start) && Reachable(start, s, steps)
    requires s.engine.pc.Installing? && !s.engine.forced
    ensures SinksEmptied(s.epoch)
    ensures NothingLeft(s.epoch) <==> !HaltedEarly(start, steps, false)
    ensures HaltedEarly(start, steps, false) ==> ForcedSince(start, steps, false)
  {
    ToldIsForced(start, s, steps);
    InitialInv(start);
    ReachableInv(start, s, steps);
    FreshUncut(start.epoch);
    CutRun(start, s, steps);
    NothingLeftIff(s.epoch);
    if i :| 0 <= i < |s.epoch.parsers| && s.epoch.drain.workers[i].role.Parser? && PL.Cut(s.epoch.parsers[i]) {
      assert s.epoch.parsers[i].halted;
    }
  }
}

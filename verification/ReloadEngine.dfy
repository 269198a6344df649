/**
 * The engine runtime as an object, and a reload as the sequence of calls it makes.  Every call is
 * proved to be a step of the reload machine, so whatever holds of that machine's runs holds of the
 * object.
 */
module ReloadEngine {
  import opened Common
  import opened Roles
  import TM = TaskManager
  import PR = ParseRouter
  import RD = ReloadDrain
  import opened EngineRuntime
  import opened DetachedGroups
  import RO = ReloadOutcome

  /** What the environment does during one reload; `next` says whether the next epoch could be started. */
  datatype Env = Env(
    next: Step,
    isolating: World, isolateOk: bool,
    waits: seq<WaitInput>,
    maintainer: World, retiring: nat, retired: World,
    forceParser: World, forceSink: World, forceInfra: World, forceMaintainer: World, forced: World,
    resuming: World, resumeOk: bool)

  lemma {:induction false} Extend(start: Engine, e: Engine, steps: seq<Step>, step: Step)
    requires WithinOne(start, e, steps) && Enabled(e, step) && (steps != [] ==> !e.pc.Idle?)
    ensures WithinOne(start, Apply(e, step), steps + [step])
    decreases |steps|
  {
    if steps == [] {
      assert [step][1..] == [];
      assert steps + [step] == [step];
    } else {
      assert (steps + [step])[1..] == steps[1..] + [step];
      if |steps| == 1 {
        assert steps[1..] == [];
      }
      Extend(Apply(start, steps[0]), e, steps[1..], step);
    }
  }

  /** Reloads one after the other make one run, so what holds of all runs holds after all of them. */
  lemma {:induction false} RunsCompose(a: Engine, b: Engine, c: Engine, first: seq<Step>, second: seq<Step>)
    requires Reachable(a, b, first) && Reachable(b, c, second)
    ensures Reachable(a, c, first + second)
    decreases |first|
  {
    if first == [] {
      assert first + second == second;
    } else {
      RunsCompose(Apply(a, first[0]), b, c, first[1..], second);
      ConsAppend(first, second);
      Prepend(a, c, first[0], first[1..] + second);
    }
  }

  /** The drain was given up, the forced branch comes next. */
  predicate GaveUp(e: Engine, t: Engine) { t.pc.ForceParser? && t.pending == e.pending && t.forced }

  predicate Failing(t: Engine) { t.pc.Idle? && t.outcome == Some(Failed) }

  lemma PcOrder()
    ensures RoleAt(DetachParser) == Parser && NextPc(DetachParser) == DetachSink
    ensures RoleAt(DetachSink) == Sink && NextPc(DetachSink) == DetachInfra
    ensures RoleAt(DetachInfra) == Infra && NextPc(DetachInfra) == PruneRetired
    ensures RoleAt(ForceParser) == Parser && NextPc(ForceParser) == ForceSink
    ensures RoleAt(ForceSink) == Sink && NextPc(ForceSink) == ForceInfra
    ensures RoleAt(ForceInfra) == Infra && NextPc(ForceInfra) == ForceMaintainer
    ensures RoleAt(ForceMaintainer) == Maintainer && NextPc(ForceMaintainer) == PruneForced
  {
  }

  class LiveRuntime {
    const manager: TM.TaskManager
    const router: PR.ParseDispatchRouter<nat>
    const reloadTimeout: nat
    var tracker: RD.ReloadDrainTracker
    var detached: seq<Detached>
    ghost var senders: seq<nat>
    ghost var installed: multiset<Group>

    constructor (manager: TM.TaskManager, router: PR.ParseDispatchRouter<nat>, tracker: RD.ReloadDrainTracker,
                 reloadTimeout: nat, ghost senders: seq<nat>, ghost installed: multiset<Group>)
      ensures this.manager == manager && this.router == router && this.tracker == tracker
      ensures this.reloadTimeout == reloadTimeout
      ensures View() == Runtime(manager.groups, [], router.View(), tracker.View(), senders,
                                manager.joined, manager.lost, installed)
    {
      this.manager, this.router, this.tracker := manager, router, tracker;
      this.reloadTimeout := reloadTimeout;
      detached := [];
      this.senders, this.installed := senders, installed;
    }

    ghost function View(): Runtime
      reads this, manager, router, tracker
    {
      Runtime(manager.groups, detached, router.View(), tracker.View(), senders,
              manager.joined, manager.lost, installed)
    }

    /** Goes through the detached groups up to the first that cannot be joined. */
    static method SweepDetached(ds: seq<Detached>, w: World)
      returns (ok: bool, running: seq<Detached>, ghost ended: seq<Group>, ghost rest: seq<Detached>)
      ensures ok <==> SweepOk(ds, w)
      ensures ended == SweepJoined(ds, w) && rest == SweepRest(ds, w) && (ok ==> running == rest)
    {
      running, ended := [], [];
      var drain := ds;
      while drain != []
        invariant SweepOk(ds, w) <==> SweepOk(drain, w)
        invariant SweepJoined(ds, w) == ended + SweepJoined(drain, w)
        invariant SweepRest(ds, w) == running + SweepRest(drain, w)
        decreases |drain|
      {
        var d := drain[0];
        if d.group.id in w.finished {
          Regroup(ended, d.group, SweepJoined(drain[1..], w));
          ended := ended + [d.group];
        } else if w.now >= d.deadline {
          if d.group.id in w.broken {
            assert Sticks(drain[0], w);
            return false, running, ended, running + drain;
          }
          Regroup(ended, d.group, SweepJoined(drain[1..], w));
          ended := ended + [d.group];
        } else {
          Regroup(running, d, SweepRest(drain[1..], w));
          running := running + [d];
        }
        SweepOkTail(drain, w);
        drain := drain[1..];
      }
      ok, rest := true, running;
    }

    /** Joins ended groups and stops overdue detached ones. */
    method PruneFinished(w: World) returns (ok: bool)
      modifies this`detached, manager
      ensures ok <==> SweepOk(old(detached), w)
      ensures View() == Pruned(old(View()), w)
    {
      manager.PruneFinished(w);
      var running;
      ghost var ended, rest;
      ok, running, ended, rest := SweepDetached(detached, w);
      manager.joined := manager.joined + multiset(ended);
      detached := if ok then running else [];
      if !ok {
        manager.lost := manager.lost + multiset(GroupsOf(rest));
      }
    }

    /** The groups of a role have moved from the manager to the detached ones, with this deadline. */
    ghost predicate Held(gs: seq<Group>, ds: seq<Detached>, role: TaskRole, deadline: nat)
      reads this, manager
    {
      && (forall g :: g in manager.groups <==> g in gs && g.role != role)
      && (forall d :: d in detached <==> d in ds || (d.group in gs && d.group.role == role && d.deadline == deadline))
    }

    method DetachRole(role: TaskRole, deadline: nat)
      modifies this`detached, manager
      ensures View() == DetachOne(old(View()), role, deadline)
      ensures Held(old(manager.groups), old(detached), role, deadline)
    {
      var gs := manager.DetachRole(role);
      forall d ensures d in Hold(gs, deadline) <==>
                         d.group in old(manager.groups) && d.group.role == role && d.deadline == deadline
      {
        HeldIff(gs, deadline, d);
        TM.MemberOfRole(old(manager.groups), role, d.group);
      }
      forall g ensures g in manager.groups <==> g in old(manager.groups) && g.role != role {
        TM.MemberOfRest(old(manager.groups), role, TM.CALM, g);
      }
      detached := detached + Hold(gs, deadline);
    }

    method StopRole(role: TaskRole, w: World) returns (ok: bool)
      modifies manager
      ensures ok <==> TM.StopOk(old(manager.groups), role, w)
      ensures View() == Stopped(old(View()), role, w)
    {
      ok := manager.StopRole(role, w);
    }

    /** Registers the groups of an epoch. */
    method Register(p: ProcessingSet)
      modifies manager
      ensures manager.groups == old(manager.groups) + NewGroups(p)
      ensures manager.joined == old(manager.joined) && manager.lost == old(manager.lost)
    {
      manager.Append(TM.Group(p.infra, Infra, p.totals.epoch));
      if p.sink.Some? {
        manager.Append(TM.Group(p.sink.value, Sink, p.totals.epoch));
      }
      manager.Append(TM.Group(p.maintainer, Maintainer, p.totals.epoch));
      manager.Append(TM.Group(p.parser, Parser, p.totals.epoch));
    }

    method InstallProcessing(p: ProcessingSet)
      modifies this`tracker, this`senders, this`installed, manager, router
      ensures View() == Install(old(View()), p) && fresh(tracker)
    {
      router.Replace(p.senders);
      senders := p.senders;
      Register(p);
      installed := installed + multiset(NewGroups(p));
      tracker := new RD.ReloadDrainTracker(p.totals.epoch, p.totals.parser, p.totals.sink, p.totals.infra);
    }

    // ------------------------------------------------ calls as machine steps

    method StopStep(role: TaskRole, w: World, ghost e: Engine) returns (ok: bool, ghost t: Engine)
      requires e.rt == View() && Stopping(e.pc) && role == RoleAt(e.pc)
      modifies manager
      ensures t == Apply(e, Stop(w)) && t.rt == View()
      ensures ok ==> t.pc == NextPc(e.pc) && t.pending == e.pending && t.forced == e.forced
      ensures !ok ==> if e.pc.StopMaintainer? then GaveUp(e, t) else Failing(t)
    {
      ok := StopRole(role, w);
      t := Apply(e, Stop(w));
    }

    method DetachStep(role: TaskRole, deadline: nat, ghost e: Engine) returns (ghost t: Engine)
      requires e.rt == View() && Detaching(e.pc) && role == RoleAt(e.pc)
      modifies this`detached, manager
      ensures t == Apply(e, Detach(deadline)) && t.rt == View()
      ensures t.pc == NextPc(e.pc) && t.pending == e.pending && t.forced == e.forced
      ensures Held(old(manager.groups), old(detached), role, deadline)
    {
      DetachRole(role, deadline);
      t := Apply(e, Detach(deadline));
    }

    method PruneStep(w: World, ghost e: Engine) returns (ok: bool, ghost t: Engine)
      requires e.rt == View() && (e.pc.PruneRetired? || e.pc.PruneForced?)
      modifies this`detached, manager
      ensures t == Apply(e, Prune(w)) && t.rt == View()
      ensures ok ==> t.pc == Installing && t.pending == e.pending && t.forced == e.forced
      ensures !ok ==> if e.pc.PruneRetired? then GaveUp(e, t) else Failing(t)
    {
      ok := PruneFinished(w);
      t := Apply(e, Prune(w));
    }

    /** Waits for drain events until the epoch is quiesced or the wait fails. */
    method WaitEvents(waits: seq<WaitInput>, ghost start: Engine, ghost e: Engine, ghost before: seq<Step>)
      returns (ok: bool, ghost t: Engine, ghost steps: seq<Step>)
      requires e.rt == View() && e.pc.Draining? && WithinOne(start, e, before)
      modifies tracker
      ensures WithinOne(start, t, steps) && steps != [] && t.rt == View()
      ensures ok ==> t.pc == StopMaintainer && t.pending == e.pending && t.forced == e.forced
      ensures !ok ==> GaveUp(e, t)
    {
      t, steps := e, before;
      var i := 0;
      while !tracker.IsFullyQuiesced()
        invariant 0 <= i <= |waits| && t.rt == View() && t.pc.Draining? && WithinOne(start, t, steps)
        invariant t.pending == e.pending && t.forced == e.forced
        decreases |waits| - i
      {
        var input := if i < |waits| then waits[i] else DeadlinePassed;
        ghost var step := Wait(input);
        Extend(start, t, steps, step);
        t, steps := Apply(t, step), steps + [step];
        if !input.Event? {
          return false, t, steps;
        }
        var fine := tracker.Observe(input.event);
        if !fine {
          return false, t, steps;
        }
        i := i + 1;
      }
      Extend(start, t, steps, Wait(DeadlinePassed));
      t, steps := Apply(t, Wait(DeadlinePassed)), steps + [Wait(DeadlinePassed)];
      ok := true;
    }

    /** Retires a drained epoch. */
    method Retire(env: Env, ghost start: Engine, ghost e: Engine, ghost before: seq<Step>)
      returns (ok: bool, ghost t: Engine, ghost steps: seq<Step>)
      requires e.rt == View() && e.pc.StopMaintainer? && WithinOne(start, e, before)
      modifies this`detached, manager
      ensures WithinOne(start, t, steps) && steps != [] && t.rt == View()
      ensures ok ==> t.pc == Installing && t.pending == e.pending && t.forced == e.forced
      ensures !ok ==> GaveUp(e, t)
    {
      ok, t := StopStep(Maintainer, env.maintainer, e);
      Extend(start, e, before, Stop(env.maintainer));
      steps := before + [Stop(env.maintainer)];
      if !ok {
        return;
      }
      t, steps := DetachAll(env, start, t, steps);
      ok, t, steps := PruneOnce(env.retired, start, t, steps);
    }

    /** Detaches one role of the epoch. */
    method DetachOneOf(role: TaskRole, deadline: nat, ghost next: Pc, ghost start: Engine, ghost e: Engine, ghost before: seq<Step>)
      returns (ghost t: Engine, ghost steps: seq<Step>)
      requires e.rt == View() && Detaching(e.pc) && role == RoleAt(e.pc) && next == NextPc(e.pc)
      requires WithinOne(start, e, before)
      modifies this`detached, manager
      ensures WithinOne(start, t, steps) && steps != [] && t.rt == View()
      ensures t.pc == next && t.pending == e.pending && t.forced == e.forced
      ensures Held(old(manager.groups), old(detached), role, deadline)
    {
      t := DetachStep(role, deadline, e);
      Extend(start, e, before, Detach(deadline));
      steps := before + [Detach(deadline)];
    }

    method DetachAll(env: Env, ghost start: Engine, ghost e: Engine, ghost before: seq<Step>)
      returns (ghost t: Engine, ghost steps: seq<Step>)
      requires e.rt == View() && e.pc.DetachParser? && WithinOne(start, e, before)
      modifies this`detached, manager
      ensures WithinOne(start, t, steps) && steps != [] && t.rt == View()
      ensures t.pc == PruneRetired && t.pending == e.pending && t.forced == e.forced
      ensures forall d :: d in detached <==>
                d in old(detached) ||
                (d.group in old(manager.groups) && d.deadline == env.retiring + reloadTimeout &&
                 (d.group.role.Parser? || d.group.role.Sink? || d.group.role.Infra?))
    {
      PcOrder();
      t, steps := DetachOneOf(Parser, env.retiring + reloadTimeout, DetachSink, start, e, before);
      t, steps := DetachOneOf(Sink, env.retiring + reloadTimeout, DetachInfra, start, t, steps);
      t, steps := DetachOneOf(Infra, env.retiring + reloadTimeout, PruneRetired, start, t, steps);
    }

    /** Stops one role of the epoch by force. */
    method ForceOne(role: TaskRole, w: World, ghost next: Pc, ghost start: Engine, ghost e: Engine, ghost before: seq<Step>)
      returns (ok: bool, ghost t: Engine, ghost steps: seq<Step>)
      requires e.rt == View() && Stopping(e.pc) && !e.pc.StopMaintainer? && role == RoleAt(e.pc)
      requires WithinOne(start, e, before) && next == NextPc(e.pc)
      modifies manager
      ensures WithinOne(start, t, steps) && steps != [] && t.rt == View()
      ensures ok ==> t.pc == next && t.pending == e.pending && t.forced == e.forced
      ensures !ok ==> Failing(t)
    {
      ok, t := StopStep(role, w, e);
      Extend(start, e, before, Stop(w));
      steps := before + [Stop(w)];
    }

    /** Stops the whole epoch by force. */
    method ForceStop(env: Env, ghost start: Engine, ghost e: Engine, ghost before: seq<Step>)
      returns (ok: bool, ghost t: Engine, ghost steps: seq<Step>)
      requires e.rt == View() && e.pc.ForceParser? && WithinOne(start, e, before)
      modifies this`detached, manager
      ensures WithinOne(start, t, steps) && steps != [] && t.rt == View()
      ensures ok ==> t.pc == Installing && t.pending == e.pending && t.forced == e.forced
      ensures !ok ==> Failing(t)
    {
      PcOrder();
      ok, t, steps := ForceOne(Parser, env.forceParser, ForceSink, start, e, before);
      if ok {
        ok, t, steps := ForceOne(Sink, env.forceSink, ForceInfra, start, t, steps);
      }
      if ok {
        ok, t, steps := ForceOne(Infra, env.forceInfra, ForceMaintainer, start, t, steps);
      }
      if ok {
        ok, t, steps := ForceOne(Maintainer, env.forceMaintainer, PruneForced, start, t, steps);
      }
      if ok {
        ok, t, steps := PruneOnce(env.forced, start, t, steps);
      }
    }

    /** The prune that ends either branch. */
    method PruneOnce(w: World, ghost start: Engine, ghost e: Engine, ghost before: seq<Step>)
      returns (ok: bool, ghost t: Engine, ghost steps: seq<Step>)
      requires e.rt == View() && (e.pc.PruneRetired? || e.pc.PruneForced?) && WithinOne(start, e, before)
      modifies this`detached, manager
      ensures WithinOne(start, t, steps) && steps != [] && t.rt == View()
      ensures ok ==> t.pc == Installing && t.pending == e.pending && t.forced == e.forced
      ensures !ok ==> if e.pc.PruneRetired? then GaveUp(e, t) else Failing(t)
    {
      ok, t := PruneStep(w, e);
      Extend(start, e, before, Prune(w));
      steps := before + [Prune(w)];
    }

    /** Prunes, isolates the picker and cuts the router off; `isolateOk` is the command's fate. */
    method IsolateStep(env: Env, ghost e: Engine) returns (ok: bool, ghost t: Engine)
      requires e.rt == View() && e.pc.Isolating?
      modifies this`detached, manager, router
      ensures t == Apply(e, Isolate(env.isolating, env.isolateOk)) && t.rt == View()
      ensures ok ==> t.pc.Draining? && t.pending == e.pending && t.forced == e.forced
      ensures !ok ==> Failing(t)
    {
      ok := PruneFinished(env.isolating);
      ok := ok && env.isolateOk;
      if ok {
        router.BeginReload();
      }
      t := Apply(e, Isolate(env.isolating, env.isolateOk));
    }

    /** Installs the pending epoch. */
    method InstallStep(p: ProcessingSet, ghost e: Engine) returns (ghost t: Engine)
      requires e.rt == View() && e.pc.Installing? && e.pending == Some(p)
      modifies this`tracker, this`senders, this`installed, manager, router
      ensures t == Apply(e, InstallPending) && t.rt == View() && t.pc.Resuming? && t.forced == e.forced && fresh(tracker)
    {
      InstallProcessing(p);
      t := Apply(e, InstallPending);
    }

    method ResumeStep(env: Env, ghost e: Engine) returns (ok: bool, ghost t: Engine)
      requires e.rt == View() && e.pc.Resuming?
      modifies this`detached, manager
      ensures t == Apply(e, Resume(env.resuming, env.resumeOk)) && t.rt == View() && t.pc.Idle?
      ensures t.outcome == Some(if ok then Done(e.forced) else Failed)
    {
      ok := PruneFinished(env.resuming);
      ok := ok && env.resumeOk;
      t := Apply(e, Resume(env.resuming, env.resumeOk));
    }

    /** Drains the active epoch, gracefully or by force. */
    method ReplaceOld(env: Env, ghost start: Engine, ghost e: Engine, ghost before: seq<Step>)
      returns (ok: bool, forced: bool, ghost t: Engine, ghost steps: seq<Step>)
      requires e.rt == View() && e.pc.Draining? && !e.forced && WithinOne(start, e, before)
      modifies this`detached, manager, tracker
      ensures WithinOne(start, t, steps) && steps != [] && t.rt == View()
      ensures ok ==> t.pc == Installing && t.pending == e.pending && t.forced == forced
      ensures !ok ==> Failing(t)
    {
      forced := false;
      ok, t, steps := WaitEvents(env.waits, start, e, before);
      if ok {
        ok, t, steps := Retire(env, start, t, steps);
      }
      if !ok {
        forced := true;
        ok, t, steps := ForceStop(env, start, t, steps);
      }
    }

    /** Starts the next epoch, unless its resources fail to load. */
    method Start(next: Step, ghost e: Engine)
      returns (ok: bool, pending: ProcessingSet, ghost t: Engine, ghost steps: seq<Step>)
      requires next.Begin? && e.rt == View() && e.pc.Idle?
      ensures ok == next.loaded && pending.totals.epoch == tracker.epoch + 1 && pending.senders == next.senders
      ensures WithinOne(e, t, steps) && steps != [] && t.rt == View()
      ensures ok ==> t.pc.Isolating? && t.pending == Some(pending) && !t.forced
      ensures !ok ==> Failing(t)
    {
      ok := next.loaded;
      pending := ProcessingSet(next.parser, next.infra, next.sink, next.maintainer, next.senders,
                               RD.Counters(tracker.epoch + 1, |next.senders|, next.sinkTotal, next.infraTotal));
      assert WithinOne(e, e, []);
      Extend(e, e, [], next);
      t, steps := Apply(e, next), [] + [next];
    }

    /** Isolates the picker for a started epoch. */
    method Prepare(env: Env, ghost start: Engine, ghost e: Engine, ghost before: seq<Step>)
      returns (ok: bool, ghost t: Engine, ghost steps: seq<Step>)
      requires e.rt == View() && e.pc.Isolating? && WithinOne(start, e, before)
      modifies this`detached, manager, router
      ensures WithinOne(start, t, steps) && steps != [] && t.rt == View()
      ensures ok ==> t.pc.Draining? && t.pending == e.pending && t.forced == e.forced
      ensures !ok ==> Failing(t)
    {
      ok, t := IsolateStep(env, e);
      Extend(start, e, before, Isolate(env.isolating, env.isolateOk));
      steps := before + [Isolate(env.isolating, env.isolateOk)];
    }

    /** Installs the pending epoch and resumes the picker. */
    method Finish(env: Env, p: ProcessingSet, ghost start: Engine, ghost e: Engine, ghost before: seq<Step>)
      returns (ok: bool, ghost t: Engine, ghost steps: seq<Step>)
      requires e.rt == View() && e.pc.Installing? && e.pending == Some(p) && WithinOne(start, e, before)
      modifies this, manager, router
      ensures WithinOne(start, t, steps) && steps != [] && t.rt == View() && t.pc.Idle?
      ensures t.outcome == Some(if ok then Done(e.forced) else Failed)
    {
      ghost var u := InstallStep(p, e);
      Extend(start, e, before, InstallPending);
      steps := before + [InstallPending];
      ok, t := ResumeStep(env, u);
      Extend(start, u, steps, Resume(env.resuming, env.resumeOk));
      steps := steps + [Resume(env.resuming, env.resumeOk)];
    }

    /**
     * One reload, from request to outcome: a run of the reload machine that ends idle, with the
     * outcome the caller is told.
     */
    method ReloadProcessing(env: Env, ghost e: Engine) returns (outcome: Outcome, ghost t: Engine, ghost steps: seq<Step>)
      requires env.next.Begin? && e.rt == View() && e.pc.Idle?
      modifies this, manager, router, tracker
      ensures WithinOne(e, t, steps) && t.rt == View() && t.pc.Idle? && t.outcome == Some(outcome)
      ensures outcome == if RO.SomeFails(e, steps) then Failed else Done(RO.SomeGivesUp(e, steps))
    {
      var ok, pending, forced;
      ok, pending, t, steps := Start(env.next, e);
      if ok {
        ok, t, steps := Prepare(env, e, t, steps);
      }
      if ok {
        ok, forced, t, steps := ReplaceOld(env, e, t, steps);
      }
      if !ok {
        RO.OutcomeIs(e, t, steps);
        return Failed, t, steps;
      }
      ok, t, steps := Finish(env, pending, e, t, steps);
      RO.OutcomeIs(e, t, steps);
      outcome := if ok then Done(forced) else Failed;
    }
  }

  lemma SweepOkTail(ds: seq<Detached>, w: World)
    requires ds != [] && !Sticks(ds[0], w)
    ensures SweepOk(ds, w) <==> SweepOk(ds[1..], w)
  {
    if SweepOk(ds[1..], w) {
      forall i | 0 <= i < |ds| ensures !Sticks(ds[i], w) {
        assert i > 0 ==> ds[i] == ds[1..][i - 1];
      }
    } else {
      var i :| 0 <= i < |ds[1..]| && Sticks(ds[1..][i], w);
      assert Sticks(ds[i + 1], w);
    }
  }
}

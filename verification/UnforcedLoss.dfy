/**
 * A run in which a reload replaces an epoch without force and a batch is lost all the same.  An earlier
 * reload gave up waiting and stopped the epoch by force; every worker obeyed and reported that it was
 * drained, one parser with a batch still queued; then the maintainer, which nobody tracks, could not be
 * joined, and the reload failed.  The next one finds nothing but drained reports.
 */
module UnforcedLoss {
  import opened Common
  import opened Roles
  import TM = TaskManager
  import RD = ReloadDrain
  import SD = SinkDrain
  import PL = ParserLoop
  import GD = GracefulDrain
  import DP = DrainProgress
  import ER = EngineRuntime
  import opened GracefulReload
  import opened EngineMoves

  // ------------------------------------------------------------ runs of the system

  lemma {:induction false} Extend(start: System, s: System, steps: seq<Step>, step: Step)
    requires Reachable(start, s, steps) && Enabled(s, step)
    ensures Reachable(start, Apply(s, step), steps + [step])
    decreases |steps|
  {
    if steps == [] {
      assert [step][1..] == [] && steps + [step] == [step];
    } else {
      assert (steps + [step])[1..] == steps[1..] + [step];
      Extend(Apply(start, steps[0]), s, steps[1..], step);
    }
  }

  /** Some run leads from one state to the other, and the other is in order. */
  ghost predicate Reaches(start: System, s: System) { Inv(s) && exists steps :: Reachable(start, s, steps) }

  lemma OneMore(start: System, s: System, step: Step)
    requires Reaches(start, s) && Enabled(s, step)
    ensures Reaches(start, Apply(s, step))
  {
    var steps :| Reachable(start, s, steps);
    Extend(start, s, steps, step);
    StepKeepsInv(s, step);
  }

  /** One step of the engine alone. */
  lemma Engine(start: System, s: System, step: ER.Step) returns (t: System)
    requires Reaches(start, s) && Enabled(s, EngineStep(step))
    ensures Reaches(start, t)
    ensures t.engine == ER.Apply(s.engine, step) && t.epoch == s.epoch && (t.told <==> s.told || StopsParsers(s.engine, step))
  {
    OneMore(start, s, EngineStep(step));
    t := Apply(s, EngineStep(step));
  }

  // ------------------------------------------------------------ the workers obey

  /** Same workers in the same roles. */
  predicate SameRoles(a: GD.Epoch, b: GD.Epoch) {
    && |a.drain.workers| == |b.drain.workers| && GD.Sized(a) && GD.Sized(b)
    && forall j :: 0 <= j < |a.drain.workers| ==> a.drain.workers[j].role == b.drain.workers[j].role
  }

  /** A step of one sink worker touches nothing else. */
  lemma SinkWork(start: System, s: System, i: nat, step: SD.Step) returns (t: System)
    requires Reaches(start, s) && i < |s.epoch.sinks| && GD.SinkRole(s.epoch.drain.workers[i].role)
    requires s.epoch.sinks[i].mode.Looping? && SD.Enabled(s.epoch.sinks[i], step)
    ensures Reaches(start, t) && t.engine == s.engine && t.told == s.told && SameRoles(s.epoch, t.epoch)
    ensures t.epoch.parsers == s.epoch.parsers
    ensures t.epoch.sinks == s.epoch.sinks[i := SD.Apply(s.epoch.sinks[i], step)]
  {
    DP.LoopingIsAlive(s.epoch, i);
    var work := Work(GD.SinkStep(i, step));
    OneMore(start, s, work);
    t := Apply(s, work);
    ReportKeepsRoles(s.epoch.drain, i, s.epoch.sinks[i].report, SD.Apply(s.epoch.sinks[i], step).report);
  }

  /** A closed sink worker receives what there is and reports that it is drained. */
  lemma SinkRuns(start: System, s: System, i: nat) returns (t: System)
    requires Reaches(start, s) && i < |s.epoch.sinks| && GD.SinkRole(s.epoch.drain.workers[i].role)
    requires s.epoch.sinks[i].mode.Looping? && DP.SinkClosed(s.epoch.sinks[i])
    ensures Reaches(start, t) && t.engine == s.engine && t.told == s.told && SameRoles(s.epoch, t.epoch)
    ensures t.epoch.parsers == s.epoch.parsers
    ensures t.epoch.sinks == s.epoch.sinks[i := t.epoch.sinks[i]] && t.epoch.sinks[i].report == Some(RD.Drained)
    decreases DP.SinkLoad(s.epoch.sinks[i])
  {
    var w := s.epoch.sinks[i];
    assert GD.WorkerInv(s.epoch, i);
    var step := DP.SinkCanMove(w);
    DP.SinkPays(w, step);
    t := SinkWork(start, s, i, step);
    assert GD.WorkerInv(t.epoch, i);
    if t.epoch.sinks[i].mode.Looping? {
      t := SinkRuns(start, t, i);
    }
  }

  /** A stop command closes a sink worker's channels. */
  lemma SinkStops(start: System, s: System, i: nat) returns (t: System)
    requires Reaches(start, s) && i < |s.epoch.sinks| && GD.SinkRole(s.epoch.drain.workers[i].role)
    requires s.epoch.sinks[i].mode.Looping? && !s.epoch.sinks[i].drain.draining
    ensures Reaches(start, t) && t.engine == s.engine && t.told == s.told && SameRoles(s.epoch, t.epoch)
    ensures t.epoch.parsers == s.epoch.parsers
    ensures t.epoch.sinks == s.epoch.sinks[i := t.epoch.sinks[i]] && t.epoch.sinks[i].report == Some(RD.Drained)
  {
    t := SinkWork(start, s, i, SD.StopCommand);
    t := SinkRuns(start, t, i);
  }

  /** Sink workers from number `k` on have not been stopped, the ones before are drained. */
  predicate SinksBefore(e: GD.Epoch, k: nat) {
    && GD.Sized(e)
    && forall i :: 0 <= i < |e.sinks| && GD.SinkRole(e.drain.workers[i].role) ==>
         if i < k then e.sinks[i].report == Some(RD.Drained)
         else e.sinks[i].mode.Looping? && !e.sinks[i].drain.draining
  }

  /** All sink workers obey. */
  lemma SinksObey(start: System, s: System, k: nat) returns (t: System)
    requires Reaches(start, s) && SinksBefore(s.epoch, k) && k <= |s.epoch.sinks|
    ensures Reaches(start, t) && t.engine == s.engine && t.told == s.told && SameRoles(s.epoch, t.epoch)
    ensures t.epoch.parsers == s.epoch.parsers && SinksBefore(t.epoch, |t.epoch.sinks|)
    decreases |s.epoch.sinks| - k
  {
    t := s;
    if k < |s.epoch.sinks| {
      if GD.SinkRole(s.epoch.drain.workers[k].role) {
        t := SinkStops(start, s, k);
      }
      t := SinksObey(start, t, k + 1);
    }
  }

  /** A parser takes the stop command and reports that it is drained. */
  lemma ParserObeys(start: System, s: System, i: nat) returns (t: System)
    requires Reaches(start, s) && s.told && i < |s.epoch.parsers| && s.epoch.drain.workers[i].role.Parser?
    requires s.epoch.parsers[i].mode.Looping?
    ensures Reaches(start, t) && t.engine == s.engine && t.told && SameRoles(s.epoch, t.epoch)
    ensures t.epoch.sinks == s.epoch.sinks && t.epoch.parsers == s.epoch.parsers[i := t.epoch.parsers[i]]
    ensures t.epoch.parsers[i].report == Some(RD.Drained) && t.epoch.parsers[i].halted
    ensures t.epoch.parsers[i].channel == s.epoch.parsers[i].channel
  {
    DP.LoopingIsAlive(s.epoch, i);
    var halt := Work(GD.ParserStep(i, PL.Halt(true)));
    OneMore(start, s, halt);
    t := Apply(s, halt);
    ReportKeepsRoles(s.epoch.drain, i, s.epoch.parsers[i].report, t.epoch.parsers[i].report);
  }

  predicate ParsersBefore(e: GD.Epoch, k: nat) {
    && GD.Sized(e)
    && forall i :: 0 <= i < |e.parsers| && e.drain.workers[i].role.Parser? ==>
         if i < k then e.parsers[i].report == Some(RD.Drained) && e.parsers[i].halted else e.parsers[i].mode.Looping?
  }

  /** All parsers obey, leaving their queues as they are. */
  lemma ParsersObey(start: System, s: System, k: nat) returns (t: System)
    requires Reaches(start, s) && s.told && ParsersBefore(s.epoch, k) && k <= |s.epoch.parsers|
    ensures Reaches(start, t) && t.engine == s.engine && t.told && SameRoles(s.epoch, t.epoch)
    ensures t.epoch.sinks == s.epoch.sinks && ParsersBefore(t.epoch, |t.epoch.parsers|)
    ensures forall i :: 0 <= i < |s.epoch.parsers| ==> t.epoch.parsers[i].channel == s.epoch.parsers[i].channel
    decreases |s.epoch.parsers| - k
  {
    t := s;
    if k < |s.epoch.parsers| {
      if s.epoch.drain.workers[k].role.Parser? {
        t := ParserObeys(start, s, k);
      }
      t := ParsersObey(start, t, k + 1);
    }
  }

  /** Everybody has reported that it is drained. */
  predicate AllReported(e: GD.Epoch) {
    SinksBefore(e, |e.sinks|) && ParsersBefore(e, |e.parsers|) && DP.AllTracked(e)
  }

  // ------------------------------------------------------------ the two reloads

  /** A reload begins and isolates the picker. */
  lemma ToDraining(start: System, s: System, gs: seq<Group>, c: RD.Counters) returns (t: System)
    requires Reaches(start, s) && Stands(s.engine, ER.Idle, gs, c)
    ensures Reaches(start, t) && t.epoch == s.epoch && t.told == s.told
    ensures Stands(t.engine, ER.Draining, gs, c) && !t.engine.forced
  {
    Begins(s.engine, gs, c);
    t := Engine(start, s, BEGIN);
    Isolates(t.engine, gs, c);
    t := Engine(start, t, ER.Isolate(TM.CALM, true));
  }

  /** It gives up waiting and stops the parsers by force. */
  lemma ToForceSink(start: System, s: System, gs: seq<Group>, c: RD.Counters) returns (t: System)
    requires Reaches(start, s) && !RD.Quiesced(c) && Stands(s.engine, ER.Draining, gs, c)
    ensures Reaches(start, t) && t.epoch == s.epoch && t.told
    ensures Stands(t.engine, ER.ForceSink, TM.Without(gs, Parser), c)
  {
    PcOrder();
    GivesUp(s.engine, gs, c);
    t := Engine(start, s, ER.Wait(ER.TimedOut));
    Stops(t.engine, gs, c);
    t := Engine(start, t, ER.Stop(TM.CALM));
  }

  /** Then the sinks and the infra sinks. */
  lemma ToForceMaintainer(start: System, s: System, gs: seq<Group>, c: RD.Counters) returns (t: System)
    requires Reaches(start, s) && Stands(s.engine, ER.ForceSink, gs, c)
    ensures Reaches(start, t) && t.epoch == s.epoch && t.told == s.told
    ensures Stands(t.engine, ER.ForceMaintainer, TM.Without(TM.Without(gs, Sink), Infra), c)
  {
    PcOrder();
    Stops(s.engine, gs, c);
    t := Engine(start, s, ER.Stop(TM.CALM));
    Stops(t.engine, TM.Without(gs, Sink), c);
    t := Engine(start, t, ER.Stop(TM.CALM));
  }

  /** A reload that gives up waiting, as far as the maintainer. */
  lemma ToMaintainer(start: System, s: System, gs: seq<Group>, c: RD.Counters) returns (t: System)
    requires Reaches(start, s) && !RD.Quiesced(c) && Stands(s.engine, ER.Idle, gs, c)
    ensures Reaches(start, t) && t.epoch == s.epoch && t.told
    ensures Stands(t.engine, ER.ForceMaintainer, TM.Without(TM.Without(TM.Without(gs, Parser), Sink), Infra), c)
  {
    t := ToDraining(start, s, gs, c);
    t := ToForceSink(start, t, gs, c);
    t := ToForceMaintainer(start, t, TM.Without(gs, Parser), c);
  }

  lemma MaintainerStays(gs: seq<Group>, g: Group)
    requires g in gs && g.role.Maintainer?
    ensures g in TM.Without(TM.Without(TM.Without(gs, Parser), Sink), Infra)
  {
    TM.MemberOfRest(gs, Parser, TM.CALM, g);
    TM.MemberOfRest(TM.Without(gs, Parser), Sink, TM.CALM, g);
    TM.MemberOfRest(TM.Without(TM.Without(gs, Parser), Sink), Infra, TM.CALM, g);
  }

  /** A worker that has not reported keeps the tracker from being quiesced. */
  lemma UnsentHoldsUp(s: System, p: nat)
    requires Inv(s) && p < |s.epoch.parsers| && s.epoch.drain.workers[p].role.Parser? && s.epoch.parsers[p].mode.Looping?
    ensures !RD.Quiesced(s.engine.rt.tracker)
  {
    DP.LoopingIsAlive(s.epoch, p);
    RD.QuiescedWorkers(s.epoch.drain);
  }

  /** The epoch as it runs before anybody is stopped. */
  predicate Running(e: GD.Epoch) { SinksBefore(e, 0) && ParsersBefore(e, 0) && DP.AllTracked(e) }

  /** The first reload: everybody is stopped by force and obeys, and the maintainer cannot be joined. */
  lemma FailedReload(start: System, s: System, p: nat, g: Group) returns (t: System)
    requires Reaches(start, s) && Running(s.epoch) && p < |s.epoch.parsers| && s.epoch.drain.workers[p].role.Parser?
    requires Stands(s.engine, ER.Idle, s.engine.rt.groups, s.engine.rt.tracker)
    requires g in s.engine.rt.groups && g.role.Maintainer?
    ensures Reaches(start, t) && AllReported(t.epoch) && SameRoles(s.epoch, t.epoch)
    ensures t.epoch.parsers[p].channel == s.epoch.parsers[p].channel
    ensures Stands(t.engine, ER.Idle, [], s.engine.rt.tracker)
  {
    var gs, c := s.engine.rt.groups, s.engine.rt.tracker;
    UnsentHoldsUp(s, p);
    t := ToMaintainer(start, s, gs, c);
    t := WorkersObey(start, t);
    MaintainerStays(gs, g);
    FailsToStop(t.engine, t.engine.rt.groups, c, g);
    t := Engine(start, t, ER.Stop(TM.World({}, {g.id}, 0)));
  }

  lemma WorkersObey(start: System, s: System) returns (t: System)
    requires Reaches(start, s) && s.told && Running(s.epoch)
    ensures Reaches(start, t) && t.engine == s.engine && AllReported(t.epoch) && SameRoles(s.epoch, t.epoch)
    ensures forall i :: 0 <= i < |s.epoch.parsers| ==> t.epoch.parsers[i].channel == s.epoch.parsers[i].channel
  {
    t := ParsersObey(start, s, 0);
    t := SinksObey(start, t, 0);
  }

  lemma ReportedIsDrained(e: GD.Epoch, i: nat)
    requires GD.Inv(e) && AllReported(e) && i < |e.drain.workers|
    ensures !e.drain.workers[i].fate.Unsent? && e.drain.workers[i].fate.outcome.Drained?
  {
    assert GD.WorkerInv(e, i);
  }

  /** The tracker takes the next report, which is a drained one. */
  lemma TakesOne(start: System, s: System) returns (t: System)
    requires Reaches(start, s) && AllReported(s.epoch) && s.epoch.drain.queue != []
    requires Stands(s.engine, ER.Draining, [], s.engine.rt.tracker) && !s.engine.forced
    ensures Reaches(start, t) && AllReported(t.epoch) && SameRoles(s.epoch, t.epoch)
    ensures t.epoch.parsers == s.epoch.parsers && |t.epoch.drain.queue| == |s.epoch.drain.queue| - 1
    ensures Stands(t.engine, ER.Draining, [], t.engine.rt.tracker) && !t.engine.forced
  {
    var d := s.epoch.drain;
    RD.HeadIsSent(d);
    assert RD.EntryOk(d, 0);
    ReportedIsDrained(s.epoch, d.queue[0].0);
    RD.ReceiveCounts(d);
    Takes(s.engine, [], s.engine.rt.tracker, d.queue[0].1);
    OneMore(start, s, TakeEvent);
    t := Apply(s, TakeEvent);
  }

  lemma TakesAll(start: System, s: System) returns (t: System)
    requires Reaches(start, s) && AllReported(s.epoch)
    requires Stands(s.engine, ER.Draining, [], s.engine.rt.tracker) && !s.engine.forced
    ensures Reaches(start, t) && SameRoles(s.epoch, t.epoch) && t.epoch.parsers == s.epoch.parsers
    ensures Stands(t.engine, ER.Draining, [], t.engine.rt.tracker) && !t.engine.forced
    ensures RD.Quiesced(t.engine.rt.tracker)
    decreases |s.epoch.drain.queue|
  {
    if s.epoch.drain.queue == [] {
      t := s;
      RD.QuiescedWorkers(s.epoch.drain);
      forall i | 0 <= i < |s.epoch.drain.workers| ensures s.epoch.drain.workers[i].fate == RD.Observed(RD.Drained) {
        ReportedIsDrained(s.epoch, i);
      }
    } else {
      t := TakesOne(start, s);
      t := TakesAll(start, t);
    }
  }

  /** It passes the wait; no group of the old epoch is left to be stopped. */
  lemma ToDetach(start: System, s: System, c: RD.Counters) returns (t: System)
    requires Reaches(start, s) && RD.Quiesced(c)
    requires Stands(s.engine, ER.Draining, [], c) && !s.engine.forced
    ensures Reaches(start, t) && t.epoch == s.epoch
    ensures Stands(t.engine, ER.DetachParser, [], c) && !t.engine.forced
  {
    PcOrder();
    Passes(s.engine, [], c);
    t := Engine(start, s, ER.Wait(ER.TimedOut));
    Stops(t.engine, [], c);
    t := Engine(start, t, ER.Stop(TM.CALM));
  }

  lemma ToPrune(start: System, s: System, c: RD.Counters) returns (t: System)
    requires Reaches(start, s) && Stands(s.engine, ER.DetachParser, [], c) && !s.engine.forced
    ensures Reaches(start, t) && t.epoch == s.epoch
    ensures Stands(t.engine, ER.PruneRetired, [], c) && !t.engine.forced
  {
    PcOrder();
    Detaches(s.engine, c);
    t := Engine(start, s, ER.Detach(0));
    Detaches(t.engine, c);
    t := Engine(start, t, ER.Detach(0));
    Detaches(t.engine, c);
    t := Engine(start, t, ER.Detach(0));
  }

  /** The second reload, which needs no force. */
  lemma SmoothReload(start: System, s: System) returns (t: System)
    requires Reaches(start, s) && AllReported(s.epoch) && Stands(s.engine, ER.Idle, [], s.engine.rt.tracker)
    ensures Reaches(start, t) && t.engine.pc.Installing? && !t.engine.forced
    ensures SameRoles(s.epoch, t.epoch) && t.epoch.parsers == s.epoch.parsers
  {
    t := ToDraining(start, s, [], s.engine.rt.tracker);
    t := TakesAll(start, t);
    var c := t.engine.rt.tracker;
    t := ToDetach(start, t, c);
    t := ToPrune(start, t, c);
    Prunes(t.engine, c);
    t := Engine(start, t, ER.Prune(TM.CALM));
  }

  /** A batch goes to a parser of a fresh epoch. */
  lemma SendStep(s: System, p: nat, package: SD.Package) returns (t: System)
    requires Initial(s) && DP.AllTracked(s.epoch) && p < |s.epoch.parsers| && s.epoch.drain.workers[p].role.Parser?
    requires s.epoch.parsers[p].channel.senders > 0
    ensures Reaches(s, t) && Running(t.epoch) && SameRoles(s.epoch, t.epoch) && t.engine == s.engine
    ensures t.epoch.parsers[p].channel.queue == [package]
  {
    InitialInv(s);
    assert PL.Initial(s.epoch.parsers[p]);
    assert forall i :: 0 <= i < |s.epoch.sinks| ==> SD.Initial(s.epoch.sinks[i]) && PL.Initial(s.epoch.parsers[i]);
    DP.LoopingIsAlive(s.epoch, p);
    assert Reachable(s, s, []);
    var send := Work(GD.ParserStep(p, PL.Send(package)));
    OneMore(s, s, send);
    t := Apply(s, send);
  }

  /**
   * Every engine with at least one parser can get there, whatever other parsers, sinks and infra sinks
   * its epoch has: one batch sent, two reloads, the second without force, and the batch has not been
   * handed on when the epoch is replaced.
   */
  lemma UnforcedCanLose(s: System, p: nat, package: SD.Package) returns (t: System)
    requires Initial(s) && DP.AllTracked(s.epoch) && p < |s.epoch.parsers| && s.epoch.drain.workers[p].role.Parser?
    requires s.epoch.parsers[p].channel.senders > 0
    ensures exists steps :: Reachable(s, t, steps)
    ensures t.engine.pc.Installing? && !t.engine.forced && !NothingLeft(t.epoch)
  {
    var g := StartedMaintainer(s.engine);
    t := SendStep(s, p, package);
    t := FailedReload(s, t, p, g);
    assert PL.Cut(t.epoch.parsers[p]);
    t := SmoothReload(s, t);
    assert PL.Cut(t.epoch.parsers[p]) && SomeCut(t.epoch);
    NothingLeftIff(t.epoch);
  }
}

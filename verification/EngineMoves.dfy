/** Single steps of a reload that go as planned, on an engine with nothing detached. */
module EngineMoves {
  import opened Common
  import opened Roles
  import TM = TaskManager
  import RD = ReloadDrain
  import ER = EngineRuntime

  type Group = TM.Group

  predicate Stands(e: ER.Engine, pc: ER.Pc, gs: seq<Group>, c: RD.Counters) {
    e.pc == pc && e.rt.groups == gs && e.rt.detached == [] && e.rt.tracker == c
  }

  const BEGIN := ER.Begin(true, 0, 0, None, 0, [], 0, 0)

  lemma Begins(e: ER.Engine, gs: seq<Group>, c: RD.Counters)
    requires Stands(e, ER.Idle, gs, c)
    ensures Stands(ER.Apply(e, BEGIN), ER.Isolating, gs, c) && !ER.Apply(e, BEGIN).forced
  {
  }

  lemma Isolates(e: ER.Engine, gs: seq<Group>, c: RD.Counters)
    requires Stands(e, ER.Isolating, gs, c)
    ensures var t := ER.Apply(e, ER.Isolate(TM.CALM, true)); Stands(t, ER.Draining, gs, c) && t.forced == e.forced
  {
    TM.RunningAll(gs, TM.CALM);
    assert ER.SweepOk(e.rt.detached, TM.CALM);
  }

  lemma GivesUp(e: ER.Engine, gs: seq<Group>, c: RD.Counters)
    requires Stands(e, ER.Draining, gs, c) && !RD.Quiesced(c)
    ensures Stands(ER.Apply(e, ER.Wait(ER.TimedOut)), ER.ForceParser, gs, c)
  {
  }

  lemma Passes(e: ER.Engine, gs: seq<Group>, c: RD.Counters)
    requires Stands(e, ER.Draining, gs, c) && RD.Quiesced(c)
    ensures var t := ER.Apply(e, ER.Wait(ER.TimedOut)); Stands(t, ER.StopMaintainer, gs, c) && t.forced == e.forced
  {
  }

  lemma Stops(e: ER.Engine, gs: seq<Group>, c: RD.Counters)
    requires ER.Stopping(e.pc) && Stands(e, e.pc, gs, c)
    ensures var t := ER.Apply(e, ER.Stop(TM.CALM));
            Stands(t, ER.NextPc(e.pc), TM.Without(gs, ER.RoleAt(e.pc)), c) && t.forced == e.forced
  {
    TM.StopOkSplits(gs, ER.RoleAt(e.pc), TM.CALM);
  }

  lemma FailsToStop(e: ER.Engine, gs: seq<Group>, c: RD.Counters, g: Group)
    requires Stands(e, ER.ForceMaintainer, gs, c) && g in gs && g.role.Maintainer?
    ensures Stands(ER.Apply(e, ER.Stop(TM.World({}, {g.id}, 0))), ER.Idle, [], c)
  {
    var i :| 0 <= i < |gs| && gs[i] == g;
    assert !TM.StopOk(gs, Maintainer, TM.World({}, {g.id}, 0));
  }

  lemma Detaches(e: ER.Engine, c: RD.Counters)
    requires ER.Detaching(e.pc) && Stands(e, e.pc, [], c)
    ensures var t := ER.Apply(e, ER.Detach(0)); Stands(t, ER.NextPc(e.pc), [], c) && t.forced == e.forced
  {
    assert e.rt.detached + ER.Hold([], 0) == [];
  }

  lemma Prunes(e: ER.Engine, c: RD.Counters)
    requires Stands(e, ER.PruneRetired, [], c)
    ensures var t := ER.Apply(e, ER.Prune(TM.CALM)); Stands(t, ER.Installing, [], c) && t.forced == e.forced
  {
    assert ER.SweepOk(e.rt.detached, TM.CALM);
  }

  lemma PcOrder()
    ensures ER.RoleAt(ER.ForceParser) == Parser && ER.NextPc(ER.ForceParser) == ER.ForceSink
    ensures ER.RoleAt(ER.ForceSink) == Sink && ER.NextPc(ER.ForceSink) == ER.ForceInfra
    ensures ER.RoleAt(ER.ForceInfra) == Infra && ER.NextPc(ER.ForceInfra) == ER.ForceMaintainer
    ensures ER.NextPc(ER.StopMaintainer) == ER.DetachParser && ER.NextPc(ER.DetachParser) == ER.DetachSink
    ensures ER.NextPc(ER.DetachSink) == ER.DetachInfra && ER.NextPc(ER.DetachInfra) == ER.PruneRetired
  {
  }

  lemma Takes(e: ER.Engine, gs: seq<Group>, c: RD.Counters, event: RD.DrainEvent)
    requires Stands(e, ER.Draining, gs, c) && RD.Judge(c, event).Counted?
    ensures var t := ER.Apply(e, ER.Wait(ER.Event(event)));
            Stands(t, ER.Draining, gs, RD.CountDown(c, event)) && t.forced == e.forced
  {
  }

  /** Every started engine has a maintainer. */
  lemma StartedMaintainer(e: ER.Engine) returns (g: Group)
    requires ER.Initial(e)
    ensures g in e.rt.groups && g.role.Maintainer?
  {
    var outer, first, picker :| ER.StartList(e.rt.groups, outer, first, picker);
    var i := |outer| + if first.sink.Some? then 2 else 1;
    g := ER.NewGroups(first)[i - |outer|];
    assert e.rt.groups[i] == g;
  }
}

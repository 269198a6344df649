/**
 * The running engine and its hot reload: isolate the picker, cut the router off, wait for the
 * active epoch to drain or stop it by force, install the next epoch, resume.
 */
module EngineRuntime {
  import opened Common
  import opened Roles
  import TM = TaskManager
  import PR = ParseRouter
  import RD = ReloadDrain

  type Group = TM.Group
  type World = TM.World

  /** Groups of a drained epoch that may still be finishing, with the time they are given. */
  datatype Detached = Detached(group: Group, deadline: nat)

  /**
   * The runtime as a value.  `senders` are the queues of the active epoch; `joined`, `lost` and
   * `installed` are history: groups ended under control, dropped unjoined, ever registered.
   */
  datatype Runtime = Runtime(groups: seq<Group>, detached: seq<Detached>, router: PR.RouterState,
                             tracker: RD.Counters, senders: seq<nat>,
                             joined: multiset<Group>, lost: multiset<Group>, installed: multiset<Group>)

  predicate Processing(role: TaskRole) {
    role.Parser? || role.Sink? || role.Infra? || role.Maintainer?
  }

  // ------------------------------------------------------- detached groups

  function GroupsOf(ds: seq<Detached>): seq<Group> {
    if ds == [] then [] else [ds[0].group] + GroupsOf(ds[1..])
  }

  /** The group has not ended, its time is up, and joining it fails. */
  predicate Sticks(d: Detached, w: World) {
    d.group.id !in w.finished && d.deadline <= w.now && d.group.id in w.broken
  }

  predicate SweepOk(ds: seq<Detached>, w: World) {
    forall i :: 0 <= i < |ds| ==> !Sticks(ds[i], w)
  }

  /** Detached groups that ended or were stopped in time, up to the first failing join. */
  function SweepJoined(ds: seq<Detached>, w: World): seq<Group> {
    if ds == [] || Sticks(ds[0], w) then []
    else if ds[0].group.id in w.finished || ds[0].deadline <= w.now then [ds[0].group] + SweepJoined(ds[1..], w)
    else SweepJoined(ds[1..], w)
  }

  /** All the others: still detached when every join succeeds, dropped when one fails. */
  function SweepRest(ds: seq<Detached>, w: World): seq<Detached> {
    if ds == [] || Sticks(ds[0], w) then ds
    else if ds[0].group.id in w.finished || ds[0].deadline <= w.now then SweepRest(ds[1..], w)
    else [ds[0]] + SweepRest(ds[1..], w)
  }

  /** Joins ended groups, in the manager and among the detached ones. */
  function Pruned(rt: Runtime, w: World): Runtime {
    var ok := SweepOk(rt.detached, w);
    var rest := SweepRest(rt.detached, w);
    rt.(groups := TM.Running(rt.groups, w),
        detached := if ok then rest else [],
        joined := rt.joined + multiset(TM.Ended(rt.groups, w)) + multiset(SweepJoined(rt.detached, w)),
        lost := if ok then rt.lost else rt.lost + multiset(GroupsOf(rest)))
  }

  /** Stops and joins the groups of a role. */
  function Stopped(rt: Runtime, role: TaskRole, w: World): Runtime {
    var ok := TM.StopOk(rt.groups, role, w);
    var rest := TM.StopRest(rt.groups, role, w);
    rt.(groups := if ok then rest else [],
        joined := rt.joined + multiset(TM.StopJoined(rt.groups, role, w)),
        lost := if ok then rt.lost else rt.lost + multiset(rest))
  }

  function Hold(gs: seq<Group>, deadline: nat): seq<Detached> {
    if gs == [] then [] else [Detached(gs[0], deadline)] + Hold(gs[1..], deadline)
  }

  function DetachOne(rt: Runtime, role: TaskRole, deadline: nat): Runtime {
    rt.(groups := TM.Without(rt.groups, role),
        detached := rt.detached + Hold(TM.OfRole(rt.groups, role), deadline))
  }

  // ----------------------------------------------------------------- reload

  /** A freshly started, not yet installed epoch. */
  datatype ProcessingSet = ProcessingSet(parser: nat, infra: nat, sink: Option<nat>, maintainer: nat,
                                         senders: seq<nat>, totals: RD.Counters)

  /** Registration order of an epoch: infra, sinks if any, maintainer, parsers. */
  function NewGroups(p: ProcessingSet): seq<Group> {
    var e := p.totals.epoch;
    var infra, maintainer := TM.Group(p.infra, Infra, e), TM.Group(p.maintainer, Maintainer, e);
    var parser := TM.Group(p.parser, Parser, e);
    if p.sink.Some? then [infra, TM.Group(p.sink.value, Sink, e), maintainer, parser]
    else [infra, maintainer, parser]
  }

  function Install(rt: Runtime, p: ProcessingSet): Runtime {
    rt.(router := PR.Replaced(p.senders), tracker := p.totals, senders := p.senders,
        groups := rt.groups + NewGroups(p), installed := rt.installed + multiset(NewGroups(p)))
  }

  /** Where a reload stands: the graceful branch, the forced branch, and the common end. */
  datatype Pc =
    | Idle
    | Isolating
    | Draining
    | StopMaintainer | DetachParser | DetachSink | DetachInfra | PruneRetired
    | ForceParser | ForceSink | ForceInfra | ForceMaintainer | PruneForced
    | Installing | Resuming

  datatype Outcome = Failed | Done(forced: bool)

  /**
   * The engine with a reload under way.  `pending` is the started epoch waiting to be installed,
   * `forced` whether the drain was given up, `outcome` the result of the last finished reload.
   * `installs` counts installations.
   */
  datatype Engine = Engine(rt: Runtime, pc: Pc, pending: Option<ProcessingSet>, forced: bool,
                           outcome: Option<Outcome>, installs: nat)

  /** What a wait for the next drain event may bring. */
  datatype WaitInput = DeadlinePassed | TimedOut | ChannelEnded | Event(event: RD.DrainEvent)

  /** Atomic steps of a reload, carrying the choices of the environment. */
  datatype Step =
    | Begin(loaded: bool, parser: nat, infra: nat, sink: Option<nat>, maintainer: nat, senders: seq<nat>,
            sinkTotal: nat, infraTotal: nat)
    | Isolate(world: World, commandOk: bool)
    | Wait(input: WaitInput)
    | Stop(world: World)
    | Detach(deadline: nat)
    | Prune(world: World)
    | InstallPending
    | Resume(world: World, commandOk: bool)

  predicate Stopping(pc: Pc) {
    pc.StopMaintainer? || pc.ForceParser? || pc.ForceSink? || pc.ForceInfra? || pc.ForceMaintainer?
  }

  predicate Detaching(pc: Pc) { pc.DetachParser? || pc.DetachSink? || pc.DetachInfra? }

  predicate Enabled(e: Engine, step: Step) {
    match step
    case Begin(_, _, _, _, _, _, _, _) => e.pc.Idle?
    case Isolate(_, _) => e.pc.Isolating?
    case Wait(_) => e.pc.Draining?
    case Stop(_) => Stopping(e.pc)
    case Detach(_) => Detaching(e.pc)
    case Prune(_) => e.pc.PruneRetired? || e.pc.PruneForced?
    case InstallPending => e.pc.Installing?
    case Resume(_, _) => e.pc.Resuming?
  }

  /** The role a stop or detach step acts on. */
  function RoleAt(pc: Pc): TaskRole
    requires Stopping(pc) || Detaching(pc)
  {
    if pc.StopMaintainer? || pc.ForceMaintainer? then Maintainer
    else if pc.ForceParser? || pc.DetachParser? then Parser
    else if pc.ForceSink? || pc.DetachSink? then Sink
    else Infra
  }

  function NextPc(pc: Pc): Pc
    requires Stopping(pc) || Detaching(pc)
  {
    match pc
    case StopMaintainer => DetachParser
    case DetachParser => DetachSink
    case DetachSink => DetachInfra
    case DetachInfra => PruneRetired
    case ForceParser => ForceSink
    case ForceSink => ForceInfra
    case ForceInfra => ForceMaintainer
    case _ => PruneForced
  }

  /** A failed reload shuts the pending epoch down unused. */
  function Abandon(e: Engine): Engine { e.(pc := Idle, pending := None, outcome := Some(Failed)) }

  function GiveUpDrain(e: Engine): Engine { e.(pc := ForceParser, forced := true) }

  function Apply(e: Engine, step: Step): Engine
    requires Enabled(e, step)
  {
    match step
    case Begin(loaded, parser, infra, sink, maintainer, senders, sinkTotal, infraTotal) =>
      if !loaded then e.(outcome := Some(Failed))
      else
        var totals := RD.Counters(e.rt.tracker.epoch + 1, |senders|, sinkTotal, infraTotal);
        e.(pc := Isolating, pending := Some(ProcessingSet(parser, infra, sink, maintainer, senders, totals)),
           forced := false)
    case Isolate(w, commandOk) =>
      var t := e.(rt := Pruned(e.rt, w));
      if SweepOk(e.rt.detached, w) && commandOk then t.(pc := Draining, rt := t.rt.(router := PR.Disconnected()))
      else Abandon(t)
    case Wait(input) =>
      var c := e.rt.tracker;
      if RD.Quiesced(c) then e.(pc := StopMaintainer)
      else if !input.Event? || RD.Judge(c, input.event).Failed? then GiveUpDrain(e)
      else e.(rt := e.rt.(tracker := RD.CountDown(c, input.event)))
    case Stop(w) =>
      var t := e.(rt := Stopped(e.rt, RoleAt(e.pc), w));
      if TM.StopOk(e.rt.groups, RoleAt(e.pc), w) then t.(pc := NextPc(e.pc))
      else if e.pc.StopMaintainer? then GiveUpDrain(t)
      else Abandon(t)
    case Detach(deadline) => e.(rt := DetachOne(e.rt, RoleAt(e.pc), deadline), pc := NextPc(e.pc))
    case Prune(w) =>
      var t := e.(rt := Pruned(e.rt, w));
      if SweepOk(e.rt.detached, w) then t.(pc := Installing)
      else if e.pc.PruneRetired? then GiveUpDrain(t)
      else Abandon(t)
    case InstallPending =>
      if e.pending.None? then e
      else e.(rt := Install(e.rt, e.pending.value), pending := None, pc := Resuming, installs := e.installs + 1)
    case Resume(w, commandOk) =>
      e.(rt := Pruned(e.rt, w), pc := Idle,
         outcome := Some(if SweepOk(e.rt.detached, w) && commandOk then Done(e.forced) else Failed))
  }

  /** Registration at start-up: groups outside of processing, the first epoch, then the picker. */
  predicate StartList(gs: seq<Group>, outer: seq<Group>, first: ProcessingSet, picker: nat) {
    && (forall g :: g in outer ==> !Processing(g.role) && !g.role.Picker?)
    && first.totals.epoch == 1
    && gs == outer + NewGroups(first) + [TM.Group(picker, Picker, 0)]
  }

  /** The engine as started. */
  ghost predicate Initial(e: Engine) {
    && e.pc.Idle? && e.pending.None? && e.outcome.None? && e.installs == 0
    && e.rt.tracker.epoch == 1 && e.rt.router == PR.Replaced(e.rt.senders) && e.rt.detached == []
    && exists outer, first, picker :: StartList(e.rt.groups, outer, first, picker)
  }

  /** At start-up every registered group is in the manager. */
  predicate FreshLedger(rt: Runtime) {
    rt.detached == [] && rt.joined == multiset{} && rt.lost == multiset{} && rt.installed == multiset(rt.groups)
  }

  ghost predicate Reachable(start: Engine, e: Engine, steps: seq<Step>)
    decreases |steps|
  {
    if steps == [] then e == start
    else Enabled(start, steps[0]) && Reachable(Apply(start, steps[0]), e, steps[1..])
  }

  /** A run within one reload: no state between its first and its last step is idle. */
  ghost predicate WithinOne(start: Engine, e: Engine, steps: seq<Step>)
    decreases |steps|
  {
    if steps == [] then e == start
    else
      && Enabled(start, steps[0])
      && (|steps| > 1 ==> !Apply(start, steps[0]).pc.Idle?)
      && WithinOne(Apply(start, steps[0]), e, steps[1..])
  }

  /** One step more at the front of a run. */
  lemma Prepend(a: Engine, c: Engine, step: Step, rest: seq<Step>)
    requires Enabled(a, step) && Reachable(Apply(a, step), c, rest)
    ensures Reachable(a, c, [step] + rest)
  {
    assert ([step] + rest)[1..] == rest;
  }
}

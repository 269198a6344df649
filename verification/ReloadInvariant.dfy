/** What every hot reload keeps, over any number of reloads and every failure path. */
module ReloadInvariant {
  import opened Common
  import opened Roles
  import TM = TaskManager
  import PR = ParseRouter
  import RD = ReloadDrain
  import opened EngineRuntime

  // ------------------------------------------------------------ the invariant

  /** At most one group per processing role, all of the given epoch. */
  ghost predicate OneEach(gs: seq<Group>, epoch: nat) {
    && (forall role :: Processing(role) ==> |TM.OfRole(gs, role)| <= 1)
    && (forall g :: g in gs && Processing(g.role) ==> g.epoch == epoch)
  }

  predicate NoProcessing(gs: seq<Group>) {
    forall g :: g in gs ==> !Processing(g.role)
  }

  /** Registration rank; the picker comes last in the first epoch and first ever after. */
  function Rank(role: TaskRole, epoch: nat): int {
    match role
    case Infra => 1
    case Sink => 2
    case Maintainer => 3
    case Parser => 4
    case Picker => if epoch <= 1 then 5 else 0
    case _ => -1
  }

  predicate Ranked(role: TaskRole) { Processing(role) || role.Picker? }

  predicate InOrder(a: Group, b: Group, epoch: nat) {
    Ranked(a.role) && Ranked(b.role) ==> Rank(a.role, epoch) <= Rank(b.role, epoch)
  }

  /** Groups stand in registration rank order. */
  predicate Ordered(gs: seq<Group>, epoch: nat) {
    gs == [] || (Ordered(gs[1..], epoch) && forall g :: g in gs[1..] ==> InOrder(gs[0], g, epoch))
  }

  ghost predicate GroupInv(rt: Runtime) {
    OneEach(rt.groups, rt.tracker.epoch) && Ordered(rt.groups, rt.tracker.epoch)
  }

  // -------------------------------------------------------- filters keep order

  lemma {:induction false} OrderedWithout(gs: seq<Group>, role: TaskRole, epoch: nat)
    requires Ordered(gs, epoch)
    ensures Ordered(TM.Without(gs, role), epoch)
  {
    if gs != [] {
      OrderedWithout(gs[1..], role, epoch);
      var rest := TM.Without(gs[1..], role);
      forall g | g in rest ensures g in gs[1..] {
        TM.MemberOfRest(gs[1..], role, TM.CALM, g);
      }
      assert ([gs[0]] + rest)[1..] == rest;
    }
  }

  lemma {:induction false} OrderedRunning(gs: seq<Group>, w: World, epoch: nat)
    requires Ordered(gs, epoch)
    ensures Ordered(TM.Running(gs, w), epoch)
  {
    if gs != [] {
      OrderedRunning(gs[1..], w, epoch);
      var rest := TM.Running(gs[1..], w);
      forall g | g in rest ensures g in gs[1..] {
        TM.MemberOfRest(gs[1..], Parser, w, g);
      }
      assert ([gs[0]] + rest)[1..] == rest;
    }
  }

  lemma {:induction false} OrderedAppend(gs: seq<Group>, hs: seq<Group>, epoch: nat)
    requires Ordered(gs, epoch) && Ordered(hs, epoch)
    requires forall g, h :: g in gs && h in hs ==> InOrder(g, h, epoch)
    ensures Ordered(gs + hs, epoch)
  {
    if gs == [] {
      assert gs + hs == hs;
    } else {
      assert (gs + hs)[1..] == gs[1..] + hs;
      OrderedAppend(gs[1..], hs, epoch);
    }
  }

  /** Without processing groups the order does not depend on the epoch. */
  lemma {:induction false} OrderedAnyEpoch(gs: seq<Group>, epoch: nat)
    requires NoProcessing(gs)
    ensures Ordered(gs, epoch)
  {
    if gs != [] {
      OrderedAnyEpoch(gs[1..], epoch);
    }
  }

  lemma {:induction false} RunningShrinks(gs: seq<Group>, w: World)
    ensures |TM.Running(gs, w)| <= |gs|
  {
    if gs != [] {
      RunningShrinks(gs[1..], w);
    }
  }

  lemma OneEachWithout(gs: seq<Group>, role: TaskRole, epoch: nat)
    requires OneEach(gs, epoch)
    ensures OneEach(TM.Without(gs, role), epoch)
  {
    forall r | Processing(r) ensures |TM.OfRole(TM.Without(gs, role), r)| <= 1 {
      TM.OfRoleWithout(gs, role, r);
    }
    forall g | g in TM.Without(gs, role) ensures g in gs {
      TM.MemberOfRest(gs, role, TM.CALM, g);
    }
  }

  lemma OneEachRunning(gs: seq<Group>, w: World, epoch: nat)
    requires OneEach(gs, epoch)
    ensures OneEach(TM.Running(gs, w), epoch)
  {
    forall r | Processing(r) ensures |TM.OfRole(TM.Running(gs, w), r)| <= 1 {
      TM.OfRoleRunning(gs, w, r);
      RunningShrinks(TM.OfRole(gs, r), w);
    }
    forall g | g in TM.Running(gs, w) ensures g in gs {
      TM.MemberOfRest(gs, Parser, w, g);
    }
  }

  // ------------------------------------------------------------------ ledger

  /** Occurrences of a group over all the places it can be in, against its registrations. */
  ghost function Balance(rt: Runtime, g: Group): int {
    multiset(rt.groups)[g] as int + multiset(GroupsOf(rt.detached))[g] + rt.joined[g] + rt.lost[g] - rt.installed[g]
  }

  lemma {:induction false} SweepConserves(ds: seq<Detached>, w: World)
    ensures multiset(SweepJoined(ds, w)) + multiset(GroupsOf(SweepRest(ds, w))) == multiset(GroupsOf(ds))
  {
    if ds != [] && !Sticks(ds[0], w) {
      SweepConserves(ds[1..], w);
      assert GroupsOf(ds) == [ds[0].group] + GroupsOf(ds[1..]);
      if ds[0].group.id !in w.finished && w.now < ds[0].deadline {
        assert ([ds[0]] + SweepRest(ds[1..], w))[1..] == SweepRest(ds[1..], w);
      }
    } else {
      assert SweepJoined(ds, w) == [];
    }
  }

  lemma {:induction false} GroupsOfAppend(ds: seq<Detached>, es: seq<Detached>)
    ensures GroupsOf(ds + es) == GroupsOf(ds) + GroupsOf(es)
  {
    if ds == [] {
      assert ds + es == es;
    } else {
      assert (ds + es)[1..] == ds[1..] + es;
      GroupsOfAppend(ds[1..], es);
    }
  }

  lemma {:induction false} GroupsOfHold(gs: seq<Group>, deadline: nat)
    ensures GroupsOf(Hold(gs, deadline)) == gs
  {
    if gs != [] {
      GroupsOfHold(gs[1..], deadline);
      assert ([Detached(gs[0], deadline)] + Hold(gs[1..], deadline))[1..] == Hold(gs[1..], deadline);
    }
  }

  lemma CountSplit(a: multiset<Group>, b: multiset<Group>, c: multiset<Group>, g: Group)
    requires a + b == c
    ensures c[g] == a[g] + b[g]
  {
  }

  lemma PruneCounts(rt: Runtime, w: World, g: Group)
    ensures multiset(rt.groups)[g] == multiset(TM.Running(rt.groups, w))[g] + multiset(TM.Ended(rt.groups, w))[g]
    ensures multiset(GroupsOf(rt.detached))[g]
            == multiset(SweepJoined(rt.detached, w))[g] + multiset(GroupsOf(SweepRest(rt.detached, w)))[g]
  {
    TM.SplitByWorld(rt.groups, w);
    SweepConserves(rt.detached, w);
    CountSplit(multiset(TM.Running(rt.groups, w)), multiset(TM.Ended(rt.groups, w)), multiset(rt.groups), g);
    CountSplit(multiset(SweepJoined(rt.detached, w)), multiset(GroupsOf(SweepRest(rt.detached, w))),
               multiset(GroupsOf(rt.detached)), g);
  }

  lemma PruneBalance(rt: Runtime, w: World, g: Group)
    ensures Balance(Pruned(rt, w), g) == Balance(rt, g)
  {
    PruneCounts(rt, w, g);
    var t := Pruned(rt, w);
    if SweepOk(rt.detached, w) {
      assert multiset(GroupsOf(t.detached))[g] + t.lost[g] == multiset(GroupsOf(SweepRest(rt.detached, w)))[g] + rt.lost[g];
    } else {
      assert GroupsOf([]) == [];
      assert multiset(GroupsOf(t.detached))[g] == 0;
    }
  }

  lemma StopBalance(rt: Runtime, role: TaskRole, w: World, g: Group)
    ensures Balance(Stopped(rt, role, w), g) == Balance(rt, g)
  {
    TM.StopConserves(rt.groups, role, w);
    assert multiset(rt.groups)[g]
           == multiset(TM.StopJoined(rt.groups, role, w))[g] + multiset(TM.StopRest(rt.groups, role, w))[g];
  }

  lemma DetachBalance(rt: Runtime, role: TaskRole, deadline: nat, g: Group)
    ensures Balance(DetachOne(rt, role, deadline), g) == Balance(rt, g)
  {
    TM.SplitByRole(rt.groups, role);
    var held := Hold(TM.OfRole(rt.groups, role), deadline);
    GroupsOfAppend(rt.detached, held);
    GroupsOfHold(TM.OfRole(rt.groups, role), deadline);
    assert multiset(rt.groups)[g] == multiset(TM.OfRole(rt.groups, role))[g] + multiset(TM.Without(rt.groups, role))[g];
    assert GroupsOf(rt.detached + held) == GroupsOf(rt.detached) + TM.OfRole(rt.groups, role);
  }

  lemma InstallBalance(rt: Runtime, p: ProcessingSet, g: Group)
    ensures Balance(Install(rt, p), g) == Balance(rt, g)
  {
    assert multiset(rt.groups + NewGroups(p)) == multiset(rt.groups) + multiset(NewGroups(p));
  }

  lemma PruningStepBalance(e: Engine, step: Step, g: Group)
    requires Enabled(e, step) && (step.Isolate? || step.Prune? || step.Resume?)
    ensures Balance(Apply(e, step).rt, g) == Balance(e.rt, g)
  {
    PruneBalance(e.rt, step.world, g);
    var p, t := Pruned(e.rt, step.world), Apply(e, step).rt;
    assert t.groups == p.groups && t.detached == p.detached && t.joined == p.joined && t.lost == p.lost;
  }

  lemma MovingStepBalance(e: Engine, step: Step, g: Group)
    requires Enabled(e, step) && (step.Stop? || step.Detach?)
    ensures Balance(Apply(e, step).rt, g) == Balance(e.rt, g)
  {
    if step.Stop? {
      StopBalance(e.rt, RoleAt(e.pc), step.world, g);
      assert Apply(e, step).rt == Stopped(e.rt, RoleAt(e.pc), step.world);
    } else {
      DetachBalance(e.rt, RoleAt(e.pc), step.deadline, g);
    }
  }

  lemma InstallStepBalance(e: Engine, g: Group)
    requires Enabled(e, InstallPending)
    ensures Balance(Apply(e, InstallPending).rt, g) == Balance(e.rt, g)
  {
    if e.pending.Some? {
      InstallBalance(e.rt, e.pending.value, g);
      assert Apply(e, InstallPending).rt == Install(e.rt, e.pending.value);
    }
  }

  lemma QuietStepBalance(e: Engine, step: Step, g: Group)
    requires Enabled(e, step) && (step.Begin? || step.Wait?)
    ensures Balance(Apply(e, step).rt, g) == Balance(e.rt, g)
  {
    var t := Apply(e, step).rt;
    assert t.groups == e.rt.groups && t.detached == e.rt.detached;
    assert t.joined == e.rt.joined && t.lost == e.rt.lost && t.installed == e.rt.installed;
  }

  /** No step of a reload, whatever fails in it, loses track of a group. */
  lemma StepBalance(e: Engine, step: Step, g: Group)
    requires Enabled(e, step)
    ensures Balance(Apply(e, step).rt, g) == Balance(e.rt, g)
  {
    if step.Isolate? || step.Prune? || step.Resume? {
      PruningStepBalance(e, step, g);
    } else if step.Stop? || step.Detach? {
      MovingStepBalance(e, step, g);
    } else if step.InstallPending? {
      InstallStepBalance(e, g);
    } else {
      QuietStepBalance(e, step, g);
    }
  }

  // ------------------------------------------------------------ operations

  lemma PruneKeepsGroups(rt: Runtime, w: World)
    requires GroupInv(rt)
    ensures GroupInv(Pruned(rt, w))
    ensures forall role :: NoneOf(rt.groups, role) ==> NoneOf(Pruned(rt, w).groups, role)
  {
    OrderedRunning(rt.groups, w, rt.tracker.epoch);
    OneEachRunning(rt.groups, w, rt.tracker.epoch);
    forall g | g in TM.Running(rt.groups, w) ensures g in rt.groups {
      TM.MemberOfRest(rt.groups, Parser, w, g);
    }
  }

  lemma StopKeepsGroups(rt: Runtime, role: TaskRole, w: World)
    requires GroupInv(rt)
    ensures GroupInv(Stopped(rt, role, w))
    ensures NoneOf(Stopped(rt, role, w).groups, role)
    ensures forall r :: NoneOf(rt.groups, r) ==> NoneOf(Stopped(rt, role, w).groups, r)
  {
    if TM.StopOk(rt.groups, role, w) {
      TM.StopOkSplits(rt.groups, role, w);
      WithoutKeepsGroups(rt, role);
    }
  }

  lemma WithoutKeepsGroups(rt: Runtime, role: TaskRole)
    requires GroupInv(rt)
    ensures var gs := TM.Without(rt.groups, role);
            && OneEach(gs, rt.tracker.epoch) && Ordered(gs, rt.tracker.epoch) && NoneOf(gs, role)
            && forall r :: NoneOf(rt.groups, r) ==> NoneOf(gs, r)
  {
    OrderedWithout(rt.groups, role, rt.tracker.epoch);
    OneEachWithout(rt.groups, role, rt.tracker.epoch);
    forall g | g in TM.Without(rt.groups, role) ensures g in rt.groups && g.role != role {
      TM.MemberOfRest(rt.groups, role, TM.CALM, g);
    }
  }

  lemma OrderedCons(g: Group, gs: seq<Group>, epoch: nat)
    requires Ordered(gs, epoch) && forall h :: h in gs ==> InOrder(g, h, epoch)
    ensures Ordered([g] + gs, epoch)
  {
    assert ([g] + gs)[1..] == gs;
  }

  lemma NewGroupsOrdered(p: ProcessingSet)
    ensures Ordered(NewGroups(p), p.totals.epoch)
    ensures forall g :: g in NewGroups(p) ==> Processing(g.role) && g.epoch == p.totals.epoch
  {
    NewGroupsInOrder(p);
  }

  lemma NewGroupsInOrder(p: ProcessingSet)
    ensures Ordered(NewGroups(p), p.totals.epoch)
  {
    var infra, maintainer := TM.Group(p.infra, Infra, p.totals.epoch), TM.Group(p.maintainer, Maintainer, p.totals.epoch);
    var parser := TM.Group(p.parser, Parser, p.totals.epoch);
    OrderedCons(parser, [], p.totals.epoch);
    assert [parser] == [parser] + [];
    OrderedCons(maintainer, [parser], p.totals.epoch);
    var tail := [maintainer] + [parser];
    if p.sink.Some? {
      var sink := TM.Group(p.sink.value, Sink, p.totals.epoch);
      OrderedCons(sink, tail, p.totals.epoch);
      OrderedCons(infra, [sink] + tail, p.totals.epoch);
      assert NewGroups(p) == [infra] + ([sink] + tail);
    } else {
      OrderedCons(infra, tail, p.totals.epoch);
      assert NewGroups(p) == [infra] + tail;
    }
  }

  lemma OfRoleCons(g: Group, gs: seq<Group>, role: TaskRole)
    ensures TM.OfRole([g] + gs, role) == if g.role == role then [g] + TM.OfRole(gs, role) else TM.OfRole(gs, role)
  {
    assert ([g] + gs)[1..] == gs;
  }

  lemma NewGroupsOnce(p: ProcessingSet, role: TaskRole)
    ensures |TM.OfRole(NewGroups(p), role)| <= 1
  {
    var infra, maintainer := TM.Group(p.infra, Infra, p.totals.epoch), TM.Group(p.maintainer, Maintainer, p.totals.epoch);
    var parser := TM.Group(p.parser, Parser, p.totals.epoch);
    OfRoleCons(parser, [], role);
    assert [parser] == [parser] + [];
    OfRoleCons(maintainer, [parser], role);
    var tail := [maintainer] + [parser];
    if p.sink.Some? {
      var sink := TM.Group(p.sink.value, Sink, p.totals.epoch);
      OfRoleCons(sink, tail, role);
      OfRoleCons(infra, [sink] + tail, role);
      assert NewGroups(p) == [infra] + ([sink] + tail);
    } else {
      OfRoleCons(infra, tail, role);
      assert NewGroups(p) == [infra] + tail;
    }
  }

  lemma NothingOfRole(gs: seq<Group>, role: TaskRole)
    requires NoProcessing(gs) && Processing(role)
    ensures TM.OfRole(gs, role) == []
  {
    if TM.OfRole(gs, role) != [] {
      var g := TM.OfRole(gs, role)[0];
      TM.MemberOfRole(gs, role, g);
    }
  }

  lemma InstallOneEach(gs: seq<Group>, p: ProcessingSet)
    requires NoProcessing(gs)
    ensures OneEach(gs + NewGroups(p), p.totals.epoch)
  {
    NewGroupsOrdered(p);
    forall role | Processing(role) ensures |TM.OfRole(gs + NewGroups(p), role)| <= 1 {
      TM.OfRoleAppend(gs, NewGroups(p), role);
      NothingOfRole(gs, role);
      NewGroupsOnce(p, role);
    }
  }

  lemma InstallOrdered(gs: seq<Group>, p: ProcessingSet)
    requires NoProcessing(gs) && p.totals.epoch > 1
    ensures Ordered(gs + NewGroups(p), p.totals.epoch)
  {
    NewGroupsOrdered(p);
    OrderedAnyEpoch(gs, p.totals.epoch);
    OrderedAppend(gs, NewGroups(p), p.totals.epoch);
  }


  // ------------------------------------------------------------ the invariant of a reload

  predicate NoneOf(gs: seq<Group>, role: TaskRole) { forall g :: g in gs ==> g.role != role }

  /** Processing roles that a reload has already cleared when it stands at a step. */
  predicate Cleared(pc: Pc, role: TaskRole) {
    match pc
    case DetachParser => role.Maintainer?
    case DetachSink => role.Maintainer? || role.Parser?
    case DetachInfra => role.Maintainer? || role.Parser? || role.Sink?
    case ForceSink => role.Parser?
    case ForceInfra => role.Parser? || role.Sink?
    case ForceMaintainer => role.Parser? || role.Sink? || role.Infra?
    case PruneRetired => Processing(role)
    case PruneForced => Processing(role)
    case Installing => Processing(role)
    case _ => false
  }

  /** The router is cut off from the isolation of the picker until the installation. */
  predicate RouterOk(e: Engine) {
    var feeding := e.rt.router.senders == e.rt.senders && !e.rt.router.reloading;
    var cutOff := e.rt.router.senders == [] && e.rt.router.reloading;
    match e.pc
    case Idle => (feeding || cutOff) && (e.outcome.Some? && e.outcome.value.Done? ==> feeding)
    case Isolating => feeding || cutOff
    case Resuming => feeding
    case _ => cutOff
  }

  ghost predicate Inv(e: Engine) {
    && GroupInv(e.rt)
    && (forall role :: Cleared(e.pc, role) ==> NoneOf(e.rt.groups, role))
    && RouterOk(e)
    && e.rt.tracker.epoch == 1 + e.installs
    && (e.pending.Some? <==> !e.pc.Idle? && !e.pc.Resuming?)
    && (e.pending.Some? ==> e.pending.value.totals.epoch == e.rt.tracker.epoch + 1)
  }

  lemma ClearedIsNoProcessing(e: Engine)
    requires Inv(e) && e.pc.Installing?
    ensures NoProcessing(e.rt.groups)
  {
    forall g | g in e.rt.groups ensures !Processing(g.role) {
      assert Cleared(e.pc, g.role) ==> NoneOf(e.rt.groups, g.role);
    }
  }

  lemma InstallKeepsGroups(rt: Runtime, p: ProcessingSet)
    requires NoProcessing(rt.groups) && p.totals.epoch > 1
    ensures GroupInv(Install(rt, p))
  {
    InstallOneEach(rt.groups, p);
    InstallOrdered(rt.groups, p);
  }

  lemma InstallKeepsInv(e: Engine)
    requires Inv(e) && e.pc.Installing?
    ensures Inv(Apply(e, InstallPending))
  {
    ClearedIsNoProcessing(e);
    InstallKeepsGroups(e.rt, e.pending.value);
    var t := Apply(e, InstallPending);
    assert t.rt == Install(e.rt, e.pending.value) && t.pc.Resuming?;
  }

  lemma StopStepKeepsInv(e: Engine, w: World)
    requires Inv(e) && Stopping(e.pc)
    ensures Inv(Apply(e, Stop(w)))
  {
    var t := Apply(e, Stop(w));
    StopKeepsGroups(e.rt, RoleAt(e.pc), w);
    forall role | Cleared(t.pc, role) ensures NoneOf(t.rt.groups, role) {
      assert role == RoleAt(e.pc) || Cleared(e.pc, role);
    }
  }

  lemma DetachStepKeepsInv(e: Engine, deadline: nat)
    requires Inv(e) && Detaching(e.pc)
    ensures Inv(Apply(e, Detach(deadline)))
  {
    var t := Apply(e, Detach(deadline));
    WithoutKeepsGroups(e.rt, RoleAt(e.pc));
    forall role | Cleared(t.pc, role) ensures NoneOf(t.rt.groups, role) {
      assert role == RoleAt(e.pc) || Cleared(e.pc, role);
    }
  }

  lemma IsolateKeepsInv(e: Engine, w: World, commandOk: bool)
    requires Inv(e) && e.pc.Isolating?
    ensures Inv(Apply(e, Isolate(w, commandOk)))
  {
    PruneKeepsGroups(e.rt, w);
  }

  lemma PruneStepKeepsInv(e: Engine, w: World)
    requires Inv(e) && (e.pc.PruneRetired? || e.pc.PruneForced?)
    ensures Inv(Apply(e, Prune(w)))
  {
    PruneKeepsGroups(e.rt, w);
    assert forall role :: Cleared(e.pc, role) <==> Processing(role);
  }

  lemma ResumeKeepsInv(e: Engine, w: World, commandOk: bool)
    requires Inv(e) && e.pc.Resuming?
    ensures Inv(Apply(e, Resume(w, commandOk)))
  {
    PruneKeepsGroups(e.rt, w);
  }

  /** Every step of a reload, successful or not, keeps the invariant. */
  lemma StepKeepsInv(e: Engine, step: Step)
    requires Inv(e) && Enabled(e, step)
    ensures Inv(Apply(e, step))
  {
    match step
    case Begin(_, _, _, _, _, _, _, _) =>
    case Isolate(w, commandOk) => IsolateKeepsInv(e, w, commandOk);
    case Wait(_) =>
    case Stop(w) => StopStepKeepsInv(e, w);
    case Detach(deadline) => DetachStepKeepsInv(e, deadline);
    case Prune(w) => PruneStepKeepsInv(e, w);
    case InstallPending => InstallKeepsInv(e);
    case Resume(w, commandOk) => ResumeKeepsInv(e, w, commandOk);
  }

  lemma StartedOrdered(gs: seq<Group>, outer: seq<Group>, first: ProcessingSet, picker: nat)
    requires StartList(gs, outer, first, picker)
    ensures Ordered(gs, 1)
  {
    var pick := TM.Group(picker, Picker, 0);
    NewGroupsOrdered(first);
    OrderedAnyEpoch(outer, 1);
    OrderedCons(pick, [], 1);
    assert [pick] == [pick] + [];
    OrderedAppend(outer, NewGroups(first), 1);
    OrderedAppend(outer + NewGroups(first), [pick], 1);
  }

  lemma StartedOneEach(gs: seq<Group>, outer: seq<Group>, first: ProcessingSet, picker: nat)
    requires StartList(gs, outer, first, picker)
    ensures OneEach(gs, 1)
  {
    var pick := TM.Group(picker, Picker, 0);
    InstallOneEach(outer, first);
    forall role | Processing(role) ensures |TM.OfRole(gs, role)| <= 1 {
      TM.OfRoleAppend(outer + NewGroups(first), [pick], role);
      OfRoleCons(pick, [], role);
      assert [pick] == [pick] + [];
    }
  }

  lemma StartedGroupsOk(gs: seq<Group>)
    requires exists outer, first, picker :: StartList(gs, outer, first, picker)
    ensures OneEach(gs, 1) && Ordered(gs, 1)
  {
    var outer, first, picker :| StartList(gs, outer, first, picker);
    StartedOrdered(gs, outer, first, picker);
    StartedOneEach(gs, outer, first, picker);
  }

  lemma InitialInv(e: Engine)
    requires Initial(e)
    ensures Inv(e)
  {
    StartedGroupsOk(e.rt.groups);
  }

  lemma InitialBalance(e: Engine, g: Group)
    requires FreshLedger(e.rt)
    ensures Balance(e.rt, g) == 0
  {
    assert GroupsOf([]) == [];
  }

  lemma AlwaysInv(start: Engine, e: Engine, steps: seq<Step>)
    requires Initial(start) && Reachable(start, e, steps)
    ensures Inv(e)
  {
    InitialInv(start);
    ReachableInv(start, e, steps);
  }

  lemma {:induction false} ReachableInv(start: Engine, e: Engine, steps: seq<Step>)
    requires Inv(start) && Reachable(start, e, steps)
    ensures Inv(e)
    decreases |steps|
  {
    if steps != [] {
      StepKeepsInv(start, steps[0]);
      ReachableInv(Apply(start, steps[0]), e, steps[1..]);
    }
  }

  lemma {:induction false} ReachableBalance(start: Engine, e: Engine, steps: seq<Step>, g: Group)
    requires Reachable(start, e, steps)
    ensures Balance(e.rt, g) == Balance(start.rt, g)
    decreases |steps|
  {
    if steps != [] {
      StepBalance(start, steps[0], g);
      ReachableBalance(Apply(start, steps[0]), e, steps[1..], g);
    }
  }

  // ------------------------------------------------------------------ theorems

  /**
   * Whole-run theorem.  At every point of any number of reloads, whatever failed along the way:
   * at most one group per processing role, all of the newest epoch; the epoch is one plus the
   * number of installs; and every group of an older epoch is out of the manager, having been
   * joined, being still detached, or having been dropped by a failed join.
   */
  lemma OneEpochAlways(start: Engine, e: Engine, steps: seq<Step>)
    requires Initial(start) && FreshLedger(start.rt) && Reachable(start, e, steps)
    ensures OneEach(e.rt.groups, e.rt.tracker.epoch)
    ensures e.rt.tracker.epoch == 1 + e.installs
    ensures forall g :: g in e.rt.installed && Processing(g.role) && g.epoch != e.rt.tracker.epoch ==>
              g !in e.rt.groups && (g in e.rt.joined || g in GroupsOf(e.rt.detached) || g in e.rt.lost)
  {
    AlwaysInv(start, e, steps);
    forall g | g in e.rt.installed && Processing(g.role) && g.epoch != e.rt.tracker.epoch
      ensures g !in e.rt.groups && (g in e.rt.joined || g in GroupsOf(e.rt.detached) || g in e.rt.lost)
    {
      EveryGroupAccounted(start, e, steps, g);
    }
  }

  /** No group is ever in two places or in none: a full account of every registration. */
  lemma EveryGroupAccounted(start: Engine, e: Engine, steps: seq<Step>, g: Group)
    requires FreshLedger(start.rt) && Reachable(start, e, steps)
    ensures multiset(e.rt.groups)[g] + multiset(GroupsOf(e.rt.detached))[g] + e.rt.joined[g] + e.rt.lost[g]
            == e.rt.installed[g]
  {
    InitialBalance(start, g);
    ReachableBalance(start, e, steps, g);
  }

  /**
   * The router after a reload: a reload that succeeds leaves it feeding exactly the workers of the
   * newest epoch; between the isolation and the installation, and after a reload that failed in
   * between, it is cut off and says so.  The pending epoch is there when it is to be installed.
   */
  lemma RouterFollowsEpoch(start: Engine, e: Engine, steps: seq<Step>)
    requires Initial(start) && Reachable(start, e, steps)
    ensures e.pc.Idle? && e.outcome.Some? && e.outcome.value.Done? ==>
              e.rt.router.senders == e.rt.senders && !e.rt.router.reloading
    ensures (e.rt.router.senders == e.rt.senders && !e.rt.router.reloading) ||
            (e.rt.router.senders == [] && e.rt.router.reloading)
    ensures !e.pc.Idle? && !e.pc.Isolating? && !e.pc.Resuming? ==>
              e.pending.Some? && e.rt.router.senders == [] && e.rt.router.reloading
    ensures e.pc.Resuming? ==> e.rt.router.senders == e.rt.senders && !e.rt.router.reloading
  {
    AlwaysInv(start, e, steps);
  }
}

/**
 * When a running engine decides to stop.  A polling loop takes a snapshot of the task groups and
 * asks the policy of the run mode; the loop has two phases and ends by shutting all groups down.
 */
module ExitPolicy {
  import opened Common
  import opened Roles
  import TM = TaskManager
  import PR = ParseRouter

  type Group = TM.Group

  /** Times are in milliseconds. */
  const QUIESCING_MAX_WAIT: nat := 30_000
  const FORCE_STOP_TIMEOUT: nat := 5_000

  datatype Kind = Batch | Daemon | Generate
  datatype Phase = Running | Quiescing
  datatype Trigger = Signal | RoleFinished(role: TaskRole) | QuiescingTimeout
  datatype Action = Stay | EnterQuiescing(trigger: Trigger) | EnterStopping(trigger: Trigger)

  datatype Snapshot = Snapshot(phase: Phase, elapsed: nat, signal: bool,
                               totals: map<TaskRole, nat>, finished: map<TaskRole, bool>)

  predicate SaysFinished(s: Snapshot, role: TaskRole) { role in s.finished && s.finished[role] }
  predicate SaysPresent(s: Snapshot, role: TaskRole) { role in s.totals && s.totals[role] > 0 }
  predicate SaysGone(s: Snapshot, role: TaskRole) { !SaysPresent(s, role) || SaysFinished(s, role) }

  // ---------------------------------------------------------------- policies

  function DecideBatch(s: Snapshot): Action {
    if s.signal then EnterStopping(Signal)
    else match s.phase
      case Running => if SaysFinished(s, Picker) then EnterQuiescing(RoleFinished(Picker)) else Stay
      case Quiescing => if SaysFinished(s, Parser) then EnterStopping(RoleFinished(Parser)) else Stay
  }

  function DecideDaemon(s: Snapshot): Action {
    if s.signal then EnterStopping(Signal)
    else match s.phase
      case Running =>
        if !SaysFinished(s, Picker) then Stay
        else if SaysGone(s, Acceptor) then EnterStopping(RoleFinished(Picker))
        else EnterQuiescing(RoleFinished(Picker))
      case Quiescing =>
        if SaysGone(s, Acceptor) then EnterStopping(RoleFinished(Picker))
        else if s.elapsed >= QUIESCING_MAX_WAIT then EnterStopping(QuiescingTimeout)
        else Stay
  }

  function DecideGenerator(s: Snapshot): Action {
    if s.signal then EnterStopping(Signal)
    else if SaysFinished(s, Generator) then EnterStopping(RoleFinished(Generator))
    else Stay
  }

  function Decide(kind: Kind, s: Snapshot): Action {
    match kind
    case Batch => DecideBatch(s)
    case Daemon => DecideDaemon(s)
    case Generate => DecideGenerator(s)
  }

  // ---------------------------------------------------------------- snapshot

  /** The role has groups and all of them have ended. */
  predicate RoleDone(gs: seq<Group>, done: set<nat>, role: TaskRole) {
    RolePresent(gs, role) && forall i :: 0 <= i < |gs| && gs[i].role == role ==> gs[i].id in done
  }

  predicate RolePresent(gs: seq<Group>, role: TaskRole) { exists i :: 0 <= i < |gs| && gs[i].role == role }

  predicate RoleGone(gs: seq<Group>, done: set<nat>, role: TaskRole) {
    forall i :: 0 <= i < |gs| && gs[i].role == role ==> gs[i].id in done
  }

  /** The snapshot tells the truth about every role. */
  predicate Truthful(s: Snapshot, gs: seq<Group>, done: set<nat>) {
    forall role ::
      && (SaysFinished(s, role) <==> RoleDone(gs, done, role))
      && (SaysPresent(s, role) <==> RolePresent(gs, role))
  }

  function Total(gs: seq<Group>, role: TaskRole): nat {
    if gs == [] then 0 else (if gs[|gs| - 1].role == role then 1 else 0) + Total(gs[..|gs| - 1], role)
  }

  function Ended(gs: seq<Group>, done: set<nat>, role: TaskRole): nat {
    if gs == [] then 0
    else (if gs[|gs| - 1].role == role && gs[|gs| - 1].id in done then 1 else 0) + Ended(gs[..|gs| - 1], done, role)
  }

  /** Counting decides: all of a role's groups have ended exactly if both counts agree. */
  lemma {:induction false} CountsDecide(gs: seq<Group>, done: set<nat>, role: TaskRole)
    ensures Ended(gs, done, role) <= Total(gs, role)
    ensures Total(gs, role) > 0 <==> RolePresent(gs, role)
    ensures Ended(gs, done, role) == Total(gs, role) <==> RoleGone(gs, done, role)
  {
    if gs != [] {
      var n, front := |gs| - 1, gs[..|gs| - 1];
      CountsDecide(front, done, role);
      assert forall i :: 0 <= i < n ==> front[i] == gs[i];
      if RolePresent(front, role) {
        var i :| 0 <= i < n && front[i].role == role;
        assert gs[i].role == role;
      }
      if RoleGone(front, done, role) && (gs[n].role == role ==> gs[n].id in done) {
        assert RoleGone(gs, done, role);
      } else if !RoleGone(front, done, role) {
        var i :| 0 <= i < n && front[i].role == role && front[i].id !in done;
        assert gs[i].role == role && gs[i].id !in done;
      }
    }
  }

  type Counters = map<TaskRole, (nat, nat)>

  /** Entries for exactly the roles met so far, with both counts. */
  predicate Counted(counters: Counters, gs: seq<Group>, done: set<nat>) {
    forall role ::
      if role in counters then counters[role] == (Total(gs, role), Ended(gs, done, role)) && counters[role].0 > 0
      else Total(gs, role) == 0 && Ended(gs, done, role) == 0
  }

  function Entry(counters: Counters, role: TaskRole): (nat, nat) {
    if role in counters then counters[role] else (0, 0)
  }

  lemma CountOne(counters: Counters, gs: seq<Group>, done: set<nat>, g: Group)
    requires Counted(counters, gs, done)
    ensures var e := Entry(counters, g.role);
            Counted(counters[g.role := (e.0 + 1, if g.id in done then e.1 + 1 else e.1)], gs + [g], done)
  {
    assert (gs + [g])[..|gs|] == gs;
  }

  lemma CountedIsTruthful(counters: Counters, gs: seq<Group>, done: set<nat>, s: Snapshot)
    requires Counted(counters, gs, done)
    requires s.totals == (map role | role in counters :: counters[role].0)
    requires s.finished == (map role | role in counters :: counters[role].0 > 0 && counters[role].0 == counters[role].1)
    ensures Truthful(s, gs, done)
  {
    forall role
      ensures SaysFinished(s, role) <==> RoleDone(gs, done, role)
      ensures SaysPresent(s, role) <==> RolePresent(gs, role)
    {
      CountsDecide(gs, done, role);
    }
  }

  /** One pass over the groups with a pair of counters per role. */
  method BuildSnapshot(gs: seq<Group>, done: set<nat>, phase: Phase, elapsed: nat, signal: bool)
    returns (s: Snapshot)
    ensures s.phase == phase && s.elapsed == elapsed && s.signal == signal
    ensures Truthful(s, gs, done)
  {
    var counters: Counters := map[];
    for i := 0 to |gs|
      invariant Counted(counters, gs[..i], done)
    {
      var rg := gs[i];
      CountOne(counters, gs[..i], done, rg);
      assert gs[..i] + [rg] == gs[..i + 1];
      var entry := Entry(counters, rg.role);
      counters := counters[rg.role := (entry.0 + 1, if rg.id in done then entry.1 + 1 else entry.1)];
    }
    assert gs[..|gs|] == gs;
    s := Snapshot(phase, elapsed, signal,
                  map role | role in counters :: counters[role].0,
                  map role | role in counters :: counters[role].0 > 0 && counters[role].0 == counters[role].1);
    CountedIsTruthful(counters, gs, done, s);
  }

  // -------------------------------------------------------------- the loop

  /** Going on, ended by a shutdown with its reason, or ended by an error. */
  datatype Status = Going | Stopping(trigger: Trigger) | Errored

  datatype Loop = Loop(phase: Phase, startedAt: nat, status: Status)

  /**
   * What one poll sees: the groups, those that have ended, the clock when the snapshot is taken and
   * again after the quiescing commands, a signal, and the groups that refuse a stop command.
   */
  datatype Input = Input(groups: seq<Group>, done: set<nat>, now: nat, later: nat, signal: bool, refused: set<nat>)

  /** An acceptor that is still running refuses to be stopped. */
  predicate Refused(p: Input) {
    exists i :: 0 <= i < |p.groups| && p.groups[i].role.Acceptor? && p.groups[i].id !in p.done && p.groups[i].id in p.refused
  }

  /** Elapsed time saturates at zero. */
  function Elapsed(startedAt: nat, now: nat): nat { if now >= startedAt then now - startedAt else 0 }

  function Applied(kind: Kind, s: Loop, p: Input, action: Action): Loop {
    match action
    case Stay => s
    case EnterQuiescing(_) =>
      if kind.Daemon? && Refused(p) then s.(status := Errored) else s.(phase := Quiescing, startedAt := p.later)
    case EnterStopping(trigger) => s.(status := Stopping(trigger))
  }

  /** The action for a truthful snapshot, in terms of the groups themselves. */
  function Chosen(kind: Kind, s: Loop, p: Input): Action {
    if p.signal then EnterStopping(Signal)
    else if kind.Generate? then
      if RoleDone(p.groups, p.done, Generator) then EnterStopping(RoleFinished(Generator)) else Stay
    else if kind.Batch? then
      if s.phase.Running? then
        if RoleDone(p.groups, p.done, Picker) then EnterQuiescing(RoleFinished(Picker)) else Stay
      else if RoleDone(p.groups, p.done, Parser) then EnterStopping(RoleFinished(Parser)) else Stay
    else if s.phase.Running? && !RoleDone(p.groups, p.done, Picker) then Stay
    else if RoleGone(p.groups, p.done, Acceptor) then EnterStopping(RoleFinished(Picker))
    else if s.phase.Running? then EnterQuiescing(RoleFinished(Picker))
    else if Elapsed(s.startedAt, p.now) >= QUIESCING_MAX_WAIT then EnterStopping(QuiescingTimeout)
    else Stay
  }

  /** One round of the loop; an ended loop does not move. */
  function Poll(kind: Kind, s: Loop, p: Input): Loop {
    if !s.status.Going? then s
    else if p.groups == [] then s.(status := Errored)
    else Applied(kind, s, p, Chosen(kind, s, p))
  }

  lemma TruthfulDecides(kind: Kind, snap: Snapshot, s: Loop, p: Input)
    requires Truthful(snap, p.groups, p.done)
    requires snap.phase == s.phase && snap.signal == p.signal && snap.elapsed == Elapsed(s.startedAt, p.now)
    ensures Decide(kind, snap) == Chosen(kind, s, p)
  {
    assert SaysGone(snap, Acceptor) <==> RoleGone(p.groups, p.done, Acceptor);
  }

  /** The group is isolated, told to stop within the limit, and joined. */
  predicate StoppedIn(trace: seq<TM.Command>, g: Group, limit: Option<nat>) {
    TM.IsolateCmd(g) in trace && TM.StopCmd(g, limit) in trace && TM.Joined(g) in trace
  }

  /** A complete shutdown reaches every group; only acceptors get the time limit. */
  lemma EveryoneStopped(gs: seq<Group>, force: Option<nat>, g: Group)
    requires g in gs
    ensures StoppedIn(TM.ShutdownTrace(gs, force), g, if g.role.Acceptor? then force else None)
  {
    var i :| 0 <= i < |gs| && gs[i] == g;
    TM.ShutdownShape(gs, force, i);
  }

  function ForceFor(trigger: Trigger): Option<nat> {
    if trigger.QuiescingTimeout? then Some(FORCE_STOP_TIMEOUT) else None
  }

  /** The loop's own variables, the phase and the time it began. */
  class ExitLoop {
    const kind: Kind
    var phase: Phase
    var startedAt: nat

    constructor (kind: Kind, now: nat)
      ensures this.kind == kind && phase == Running && startedAt == now
    {
      this.kind := kind;
      phase := Running;
      startedAt := now;
    }

    function View(status: Status): Loop
      reads this
    {
      Loop(phase, startedAt, status)
    }

    /** Asks the running groups of a role to stop, giving up at the first that refuses. */
    static method RequestRoleStop(gs: seq<Group>, done: set<nat>, refused: set<nat>, role: TaskRole)
      returns (ok: bool)
      ensures ok <==> forall i :: 0 <= i < |gs| && gs[i].role == role && gs[i].id !in done ==> gs[i].id !in refused
    {
      var i := 0;
      while i < |gs|
        invariant 0 <= i <= |gs|
        invariant forall k :: 0 <= k < i && gs[k].role == role && gs[k].id !in done ==> gs[k].id !in refused
      {
        if gs[i].role == role && gs[i].id !in done && gs[i].id in refused {
          return false;
        }
        i := i + 1;
      }
      ok := true;
    }

    /** The next action, or none without groups to watch. */
    method NextAction(p: Input) returns (action: Option<Action>)
      ensures action == if p.groups == [] then None else Some(Chosen(kind, View(Going), p))
    {
      if p.groups == [] {
        return None;
      }
      var snap := BuildSnapshot(p.groups, p.done, phase, Elapsed(startedAt, p.now), p.signal);
      TruthfulDecides(kind, snap, View(Going), p);
      action := Some(Decide(kind, snap));
    }

    /**
     * Carries an action out.  Stopping shuts the groups down in the manager's own order; the shutdown
     * is complete, or an error cut it short.
     */
    method ApplyAction(tm: TM.TaskManager, p: Input, action: Action, w: TM.World, deaf: set<nat>)
      returns (status: Status, down: bool, trace: seq<TM.Command>)
      requires p.groups == tm.groups
      modifies this, tm`groups
      ensures View(status) == Applied(kind, old(View(Going)), p, action)
      ensures !status.Stopping? ==> !down && trace == [] && tm.groups == old(tm.groups)
      ensures action.EnterStopping? ==> status == Stopping(action.trigger)
      ensures status.Stopping? ==> trace <= TM.ShutdownTrace(old(tm.groups), ForceFor(status.trigger))
      ensures status.Stopping? && down ==>
                tm.groups == [] && trace == TM.ShutdownTrace(old(tm.groups), ForceFor(status.trigger))
      ensures status.Stopping? && down ==> forall g :: g in old(tm.groups) ==>
                StoppedIn(trace, g, if g.role.Acceptor? && action.trigger.QuiescingTimeout? then Some(5_000) else None)
      ensures status.Stopping? ==> (down <==> forall g :: g in old(tm.groups) ==> g.id !in w.broken && g.id !in deaf)
    {
      down, trace := false, [];
      match action
      case Stay => status := Going;
      case EnterQuiescing(_) =>
        if kind.Daemon? {
          var ok := RequestRoleStop(tm.groups, p.done, p.refused, Acceptor);
          if !ok {
            return Errored, down, trace;
          }
        }
        phase, startedAt := Quiescing, p.later;
        status := Going;
      case EnterStopping(trigger) =>
        ghost var before := tm.groups;
        down, trace := tm.StopRoleGroups(ForceFor(trigger), w, deaf);
        status := Stopping(trigger);
        forall g | g in before && down
          ensures StoppedIn(trace, g, if g.role.Acceptor? then ForceFor(trigger) else None)
        {
          EveryoneStopped(before, ForceFor(trigger), g);
        }
    }

    /** One poll of the loop. */
    method PollExitPolicy(tm: TM.TaskManager, p: Input, w: TM.World, deaf: set<nat>)
      returns (status: Status, down: bool, trace: seq<TM.Command>)
      requires p.groups == tm.groups
      modifies this, tm`groups
      ensures View(status) == Poll(kind, old(View(Going)), p)
      ensures !status.Stopping? ==> !down && trace == [] && tm.groups == old(tm.groups)
      ensures status.Stopping? ==> trace <= TM.ShutdownTrace(old(tm.groups), ForceFor(status.trigger))
      ensures status.Stopping? && down ==>
                tm.groups == [] && trace == TM.ShutdownTrace(old(tm.groups), ForceFor(status.trigger))
      ensures status.Stopping? ==> (down <==> forall g :: g in old(tm.groups) ==> g.id !in w.broken && g.id !in deaf)
      ensures p.signal && p.groups != [] ==> status == Stopping(Signal)
      ensures p.signal && (forall g :: g in old(tm.groups) ==> g.id !in w.broken && g.id !in deaf) ==>
                tm.groups == [] && forall g :: g in old(tm.groups) ==> StoppedIn(trace, g, None)
    {
      var action := NextAction(p);
      if action.None? {
        return Errored, false, [];
      }
      ghost var before := tm.groups;
      status, down, trace := ApplyAction(tm, p, action.value, w, deaf);
      forall g | g in before && trace == TM.ShutdownTrace(before, None) ensures StoppedIn(trace, g, None) {
        EveryoneStopped(before, None, g);
      }
    }

    /**
     * A round of the batch engine, which also cuts the parse router off when it enters the quiescing
     * phase: the router is cut off exactly in that phase.
     */
    method BatchRound(tm: TM.TaskManager, router: PR.ParseDispatchRouter<nat>, p: Input, w: TM.World, deaf: set<nat>)
      returns (status: Status)
      requires kind.Batch? && p.groups == tm.groups
      requires phase.Quiescing? <==> router.senders == [] && router.reloading
      modifies this, tm`groups, router
      ensures View(status) == Poll(kind, old(View(Going)), p)
      ensures phase.Quiescing? <==> router.senders == [] && router.reloading
      ensures phase == old(phase) ==> router.View() == old(router.View())
    {
      var action := NextAction(p);
      if action.None? {
        return Errored;
      }
      if action.value.EnterQuiescing? {
        router.BeginReload();
      }
      var down, trace;
      status, down, trace := ApplyAction(tm, p, action.value, w, deaf);
    }

    /** The waiting loop: polls until the run is over or nothing more is seen. */
    method AllDownWaitPolicy(tm: TM.TaskManager, ps: seq<Input>, w: TM.World, deaf: set<nat>)
      returns (status: Status, polls: nat)
      requires forall k :: 0 <= k < |ps| ==> ps[k].groups == tm.groups
      modifies this, tm`groups
      ensures View(status) == After(kind, old(View(Going)), ps)
      ensures polls <= |ps| && (status.Going? ==> polls == |ps| && tm.groups == old(tm.groups))
      ensures !status.Going? ==> polls > 0 && After(kind, old(View(Going)), ps[..polls - 1]).status.Going?
    {
      status, polls := Going, 0;
      while polls < |ps| && status.Going?
        invariant polls <= |ps| && View(status) == After(kind, old(View(Going)), ps[..polls])
        invariant status.Going? ==> tm.groups == old(tm.groups)
        invariant !status.Going? ==> polls > 0 && After(kind, old(View(Going)), ps[..polls - 1]).status.Going?
        decreases |ps| - polls
      {
        assert ps[..polls + 1][..polls] == ps[..polls];
        var down, trace;
        status, down, trace := PollExitPolicy(tm, ps[polls], w, deaf);
        polls := polls + 1;
      }
      AfterPrefix(kind, old(View(Going)), ps, polls);
      assert status.Going? ==> ps[..polls] == ps;
    }
  }

  // ------------------------------------------------------------------- runs

  function Start(now: nat): Loop { Loop(Running, now, Going) }

  function After(kind: Kind, s: Loop, ps: seq<Input>): Loop {
    if ps == [] then s else Poll(kind, After(kind, s, ps[..|ps| - 1]), ps[|ps| - 1])
  }

  predicate Quiet(p: Input) { p.groups != [] && !p.signal }
  predicate Done(p: Input, role: TaskRole) { RoleDone(p.groups, p.done, role) }
  predicate Gone(p: Input, role: TaskRole) { RoleGone(p.groups, p.done, role) }

  lemma {:induction false} AfterPrefix(kind: Kind, s: Loop, ps: seq<Input>, k: nat)
    requires k <= |ps|
    ensures !After(kind, s, ps[..k]).status.Going? ==> After(kind, s, ps) == After(kind, s, ps[..k])
    ensures After(kind, s, ps).status.Going? ==> After(kind, s, ps[..k]).status.Going?
  {
    if k < |ps| {
      AfterPrefix(kind, s, ps[..|ps| - 1], k);
      assert ps[..|ps| - 1][..k] == ps[..k];
    } else {
      assert ps[..k] == ps;
    }
  }

  /** The poll that ended the loop. */
  lemma {:induction false} LastPoll(kind: Kind, s: Loop, ps: seq<Input>) returns (k: nat)
    requires s.status.Going? && !After(kind, s, ps).status.Going?
    ensures k < |ps| && After(kind, s, ps[..k]).status.Going?
    ensures After(kind, s, ps) == Poll(kind, After(kind, s, ps[..k]), ps[k])
  {
    var n := |ps| - 1;
    if After(kind, s, ps[..n]).status.Going? {
      k := n;
    } else {
      k := LastPoll(kind, s, ps[..n]);
      assert ps[..n][..k] == ps[..k];
    }
  }

  /** No run ever goes back to the running phase. */
  lemma {:induction false} PhaseIsFinal(kind: Kind, s: Loop, ps: seq<Input>, k: nat)
    requires k <= |ps| && After(kind, s, ps[..k]).phase.Quiescing?
    ensures After(kind, s, ps).phase.Quiescing?
    ensures After(kind, s, ps).startedAt == After(kind, s, ps[..k]).startedAt
  {
    if k < |ps| {
      assert ps[..|ps| - 1][..k] == ps[..k];
      PhaseIsFinal(kind, s, ps[..|ps| - 1], k);
    } else {
      assert ps[..k] == ps;
    }
  }

  // ------------------------------------------------------------- how a run ends

  /** Poll `k` finds the loop going. */
  predicate SeenBy(kind: Kind, now: nat, ps: seq<Input>, k: int) {
    0 <= k < |ps| && After(kind, Start(now), ps[..k]).status.Going?
  }

  /** A daemon that would enter its second phase is refused by an acceptor. */
  predicate RefusedAt(ps: seq<Input>, k: int)
    requires 0 <= k < |ps|
  {
    var p := ps[k];
    && !p.signal && Done(p, Picker) && !SomePickersDone(ps[..k])
    && exists i :: 0 <= i < |p.groups| && p.groups[i].role.Acceptor? && p.groups[i].id !in p.done && p.groups[i].id in p.refused
  }

  predicate ErrsAt(kind: Kind, now: nat, ps: seq<Input>, k: int) {
    SeenBy(kind, now, ps, k) && (ps[k].groups == [] || (kind.Daemon? && RefusedAt(ps, k)))
  }

  predicate SignalledAt(kind: Kind, now: nat, ps: seq<Input>, k: int) {
    SeenBy(kind, now, ps, k) && ps[k].groups != [] && ps[k].signal
  }

  /** What a poll makes of a loop that is still going. */
  lemma PollDecides(kind: Kind, now: nat, ps: seq<Input>, k: nat)
    requires SeenBy(kind, now, ps, k)
    ensures var t := Poll(kind, After(kind, Start(now), ps[..k]), ps[k]);
            && (t.status.Errored? <==> ErrsAt(kind, now, ps, k))
            && (t.status == Stopping(Signal) <==> SignalledAt(kind, now, ps, k))
  {
    if kind.Daemon? {
      DaemonGoingIff(now, ps[..k]);
    }
  }

  lemma PollOfRun(kind: Kind, now: nat, ps: seq<Input>, k: nat)
    requires SeenBy(kind, now, ps, k)
    ensures var t := Poll(kind, After(kind, Start(now), ps[..k]), ps[k]);
            !t.status.Going? ==> After(kind, Start(now), ps) == t
  {
    assert ps[..k + 1][..k] == ps[..k];
    AfterPrefix(kind, Start(now), ps, k + 1);
  }

  /**
   * How a run ends: with an error exactly if a poll of the going loop found no group at all, or a daemon
   * about to enter its second phase was refused by a running acceptor; by the signal exactly if one of
   * its polls saw it, with groups to stop.
   */
  lemma EndsIff(kind: Kind, now: nat, ps: seq<Input>)
    ensures After(kind, Start(now), ps).status.Errored? <==> exists k :: ErrsAt(kind, now, ps, k)
    ensures After(kind, Start(now), ps).status == Stopping(Signal) <==> exists k :: SignalledAt(kind, now, ps, k)
  {
    if !After(kind, Start(now), ps).status.Going? {
      var k := LastPoll(kind, Start(now), ps);
      PollDecides(kind, now, ps, k);
    }
    forall k | ErrsAt(kind, now, ps, k) || SignalledAt(kind, now, ps, k)
      ensures After(kind, Start(now), ps) == Poll(kind, After(kind, Start(now), ps[..k]), ps[k])
      ensures ErrsAt(kind, now, ps, k) ==> After(kind, Start(now), ps).status.Errored?
      ensures SignalledAt(kind, now, ps, k) ==> After(kind, Start(now), ps).status == Stopping(Signal)
    {
      PollDecides(kind, now, ps, k);
      PollOfRun(kind, now, ps, k);
    }
  }

  // ------------------------------------------------------------------ batch

  predicate PickersThenParsers(ps: seq<Input>, j: int, k: int) {
    0 <= j < k < |ps| && Done(ps[j], Picker) && Done(ps[k], Parser)
  }

  ghost predicate BatchOver(ps: seq<Input>) { exists j, k :: PickersThenParsers(ps, j, k) }
  predicate AllQuiet(ps: seq<Input>) { forall k :: 0 <= k < |ps| ==> Quiet(ps[k]) }
  predicate SomePickersDone(ps: seq<Input>) { exists j :: 0 <= j < |ps| && Done(ps[j], Picker) }

  lemma BatchOverSplit(ps: seq<Input>)
    requires ps != []
    ensures BatchOver(ps) <==> BatchOver(ps[..|ps| - 1]) || (SomePickersDone(ps[..|ps| - 1]) && Done(ps[|ps| - 1], Parser))
  {
    var n, front := |ps| - 1, ps[..|ps| - 1];
    if BatchOver(ps) {
      var j, k :| PickersThenParsers(ps, j, k);
      assert Done(front[j], Picker);
      if k < n {
        assert PickersThenParsers(front, j, k);
      }
    }
    if BatchOver(front) {
      var j, k :| PickersThenParsers(front, j, k);
      assert PickersThenParsers(ps, j, k);
    }
    if SomePickersDone(front) && Done(ps[n], Parser) {
      var j :| 0 <= j < |front| && Done(front[j], Picker);
      assert PickersThenParsers(ps, j, n);
    }
  }

  lemma QuietSplit(ps: seq<Input>)
    requires ps != []
    ensures AllQuiet(ps) <==> AllQuiet(ps[..|ps| - 1]) && Quiet(ps[|ps| - 1])
    ensures SomePickersDone(ps) <==> SomePickersDone(ps[..|ps| - 1]) || Done(ps[|ps| - 1], Picker)
  {
    var front := ps[..|ps| - 1];
    assert forall k :: 0 <= k < |front| ==> front[k] == ps[k];
    if SomePickersDone(ps) {
      var j :| 0 <= j < |ps| && Done(ps[j], Picker);
      assert j < |front| ==> Done(front[j], Picker);
    }
  }

  /**
   * A batch run is still going exactly if no signal came, there were groups to watch, and no poll
   * saw all parsers ended after an earlier poll saw all pickers ended.
   */
  lemma {:induction false} BatchGoingIff(now: nat, ps: seq<Input>)
    ensures After(Batch, Start(now), ps).status.Going? <==> AllQuiet(ps) && !BatchOver(ps)
    ensures After(Batch, Start(now), ps).status.Going? ==>
              (After(Batch, Start(now), ps).phase.Quiescing? <==> SomePickersDone(ps))
  {
    if ps != [] {
      BatchGoingIff(now, ps[..|ps| - 1]);
      BatchOverSplit(ps);
      QuietSplit(ps);
    }
  }

  /** Ended tasks stay ended, and nobody touches the group list. */
  predicate Steady(ps: seq<Input>) {
    forall i, j :: 0 <= i < j < |ps| ==> ps[i].groups == ps[j].groups && ps[i].done <= ps[j].done
  }

  /** Without a signal a batch run stops only when every picker and every parser has ended. */
  lemma BatchStopIsComplete(now: nat, ps: seq<Input>, trigger: Trigger)
    requires Steady(ps) && After(Batch, Start(now), ps).status == Stopping(trigger) && trigger != Signal
    ensures trigger == RoleFinished(Parser)
    ensures exists j, k :: PickersThenParsers(ps, j, k) && Done(ps[k], Picker)
  {
    var k := LastPoll(Batch, Start(now), ps);
    BatchGoingIff(now, ps[..k]);
    var j :| 0 <= j < |ps[..k]| && Done(ps[..k][j], Picker);
    assert PickersThenParsers(ps, j, k);
    assert ps[j].groups == ps[k].groups && ps[j].done <= ps[k].done;
  }

  // ----------------------------------------------------------------- daemon

  predicate FirstPicker(ps: seq<Input>, j: int) {
    0 <= j < |ps| && Done(ps[j], Picker) && forall i :: 0 <= i < j ==> !Done(ps[i], Picker)
  }

  /** Nothing after the first sight of ended pickers lets the daemon stop. */
  predicate Lingers(ps: seq<Input>, j: int)
    requires 0 <= j < |ps|
  {
    && !Gone(ps[j], Acceptor) && !Refused(ps[j])
    && forall k :: j < k < |ps| ==> Waits(ps[j], ps[k])
  }

  predicate Waits(first: Input, p: Input) {
    !Gone(p, Acceptor) && p.now < first.later + QUIESCING_MAX_WAIT
  }

  ghost predicate DaemonHolds(ps: seq<Input>) { forall j :: FirstPicker(ps, j) ==> Lingers(ps, j) }

  lemma FirstPickerFront(ps: seq<Input>, j: nat)
    requires ps != [] && j < |ps| - 1
    ensures FirstPicker(ps, j) <==> FirstPicker(ps[..|ps| - 1], j)
    ensures Lingers(ps, j) <==> Lingers(ps[..|ps| - 1], j) && Waits(ps[j], ps[|ps| - 1])
  {
    var front := ps[..|ps| - 1];
    assert forall k :: 0 <= k < |front| ==> front[k] == ps[k];
    if Lingers(front, j) && Waits(ps[j], ps[|ps| - 1]) {
      forall k | j < k < |ps| ensures Waits(ps[j], ps[k]) {
        assert k < |front| ==> Waits(front[j], front[k]);
      }
    }
    if Lingers(ps, j) {
      forall k | j < k < |front| ensures Waits(front[j], front[k]) {
        assert Waits(ps[j], ps[k]);
      }
    }
  }

  lemma {:induction false} FirstPickerExists(ps: seq<Input>) returns (j: nat)
    requires SomePickersDone(ps)
    ensures FirstPicker(ps, j)
  {
    var front := ps[..|ps| - 1];
    if SomePickersDone(front) {
      j := FirstPickerExists(front);
      assert forall k :: 0 <= k < |front| ==> front[k] == ps[k];
    } else {
      j := |ps| - 1;
      forall i | 0 <= i < j ensures !Done(ps[i], Picker) {
        assert front[i] == ps[i];
      }
    }
  }

  lemma DaemonHoldsBefore(ps: seq<Input>)
    requires ps != [] && !SomePickersDone(ps[..|ps| - 1])
    ensures DaemonHolds(ps) <==> (Done(ps[|ps| - 1], Picker) ==> !Gone(ps[|ps| - 1], Acceptor) && !Refused(ps[|ps| - 1]))
    ensures DaemonHolds(ps[..|ps| - 1])
    ensures Done(ps[|ps| - 1], Picker) ==> FirstPicker(ps, |ps| - 1)
  {
    var n, front := |ps| - 1, ps[..|ps| - 1];
    forall i | 0 <= i < n ensures !Done(ps[i], Picker) {
      assert front[i] == ps[i];
    }
    assert forall j :: FirstPicker(ps, j) ==> j == n;
    assert Done(ps[n], Picker) ==> FirstPicker(ps, n);
  }

  lemma DaemonHoldsAfter(ps: seq<Input>, j: nat)
    requires ps != [] && FirstPicker(ps[..|ps| - 1], j)
    ensures FirstPicker(ps, j)
    ensures DaemonHolds(ps) <==> DaemonHolds(ps[..|ps| - 1]) && Waits(ps[j], ps[|ps| - 1])
  {
    var front := ps[..|ps| - 1];
    FirstPickerFront(ps, j);
    assert forall i :: FirstPicker(ps, i) || FirstPicker(front, i) ==> i == j;
  }

  /**
   * A daemon run is still going exactly if no signal came, there were groups to watch, and since the
   * first poll that saw all pickers ended some acceptor was always running and less than the maximum
   * wait had passed.  The clock of the wait is set once, at that first poll.
   */
  lemma {:induction false} DaemonGoingIff(now: nat, ps: seq<Input>)
    ensures After(Daemon, Start(now), ps).status.Going? <==> AllQuiet(ps) && DaemonHolds(ps)
    ensures After(Daemon, Start(now), ps).status.Going? ==>
              && (After(Daemon, Start(now), ps).phase.Quiescing? <==> SomePickersDone(ps))
              && forall j :: FirstPicker(ps, j) ==> After(Daemon, Start(now), ps).startedAt == ps[j].later
  {
    if ps != [] {
      var front := ps[..|ps| - 1];
      DaemonGoingIff(now, front);
      QuietSplit(ps);
      if SomePickersDone(front) {
        var j := FirstPickerExists(front);
        DaemonHoldsAfter(ps, j);
        assert forall i :: FirstPicker(ps, i) ==> i == j;
      } else {
        DaemonHoldsBefore(ps);
        assert Done(ps[|ps| - 1], Picker) ==> forall i :: FirstPicker(ps, i) ==> i == |ps| - 1;
      }
    }
  }

  /** Why a daemon run stopped, at the poll that stopped it. */
  lemma DaemonStopReason(now: nat, ps: seq<Input>, trigger: Trigger) returns (k: nat)
    requires After(Daemon, Start(now), ps).status == Stopping(trigger) && trigger != Signal
    ensures k < |ps| && SomePickersDone(ps[..k + 1])
    ensures trigger == RoleFinished(Picker) ==> Gone(ps[k], Acceptor)
    ensures trigger != RoleFinished(Picker) ==>
              && trigger == QuiescingTimeout
              && exists j :: 0 <= j < k && FirstPicker(ps, j) && ps[k].now >= ps[j].later + QUIESCING_MAX_WAIT
  {
    k := LastPoll(Daemon, Start(now), ps);
    DaemonGoingIff(now, ps[..k]);
    QuietSplit(ps[..k + 1]);
    assert ps[..k + 1][..k] == ps[..k];
    if trigger != RoleFinished(Picker) {
      var j := FirstPickerExists(ps[..k]);
      assert forall i :: 0 <= i < k ==> ps[..k][i] == ps[i];
      assert FirstPicker(ps, j);
    }
  }

  /** Polls are at least `gap` apart, counting from the moment the phase changed. */
  predicate Spaced(ps: seq<Input>, j: nat, gap: nat) {
    forall k :: j < k < |ps| ==> ps[k].now >= (if k == j + 1 then ps[j].later else ps[k - 1].now) + gap
  }

  lemma {:induction false} SpacedReach(ps: seq<Input>, j: nat, gap: nat, k: nat)
    requires Spaced(ps, j, gap) && j < k < |ps|
    ensures ps[k].now >= ps[j].later + gap * (k - j)
    decreases k
  {
    if k > j + 1 {
      SpacedReach(ps, j, gap, k - 1);
      Distribute(gap, k - 1 - j, 1);
    }
  }

  /**
   * Termination: the remaining wait shrinks with every poll, so once all pickers have ended a daemon
   * that polls every `gap` milliseconds is over once its further polls cover thirty seconds.
   */
  lemma DaemonTerminates(now: nat, ps: seq<Input>, j: nat, gap: nat)
    requires gap > 0 && FirstPicker(ps, j) && Spaced(ps, j, gap)
    requires gap * (|ps| - 1 - j) >= 30_000
    ensures !After(Daemon, Start(now), ps).status.Going?
  {
    LastIsLate(ps, j, gap);
    DaemonGoingIff(now, ps);
  }

  lemma LastIsLate(ps: seq<Input>, j: nat, gap: nat)
    requires gap > 0 && j < |ps| && Spaced(ps, j, gap) && gap * (|ps| - 1 - j) >= QUIESCING_MAX_WAIT
    ensures j < |ps| - 1 && !Waits(ps[j], ps[|ps| - 1])
  {
    var n: nat := |ps| - 1 - j;
    assert n > 0;
    SpacedReach(ps, j, gap, |ps| - 1);
  }

  /** The generator's loop has no second phase. */
  lemma {:induction false} GeneratorGoingIff(now: nat, ps: seq<Input>)
    ensures After(Generate, Start(now), ps).status.Going? <==>
              AllQuiet(ps) && forall k :: 0 <= k < |ps| ==> !Done(ps[k], Generator)
    ensures After(Generate, Start(now), ps).phase.Running?
    ensures var status := After(Generate, Start(now), ps).status;
            status.Stopping? ==> status.trigger == Signal || status.trigger == RoleFinished(Generator)
  {
    if ps != [] {
      var front := ps[..|ps| - 1];
      GeneratorGoingIff(now, front);
      QuietSplit(ps);
      assert forall k :: 0 <= k < |front| ==> front[k] == ps[k];
    }
  }
}

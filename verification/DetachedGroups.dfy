/** How long the groups of a drained epoch are left alone, over any number of reloads. */
module DetachedGroups {
  import opened Common
  import opened Roles
  import TM = TaskManager
  import opened EngineRuntime

  predicate Pruning(step: Step) { step.Isolate? || step.Prune? || step.Resume? }

  /** Ended, or out of time at the moment of a prune. */
  predicate Due(d: Detached, w: World) { d.group.id in w.finished || d.deadline <= w.now }

  lemma {:induction false} HeldIff(gs: seq<Group>, deadline: nat, d: Detached)
    ensures d in Hold(gs, deadline) <==> d.group in gs && d.deadline == deadline
  {
    if gs != [] {
      HeldIff(gs[1..], deadline, d);
      assert gs == [gs[0]] + gs[1..];
    }
  }

  lemma SweepTail(ds: seq<Detached>, w: World)
    requires ds != [] && SweepOk(ds, w)
    ensures SweepOk(ds[1..], w) && !Sticks(ds[0], w)
  {
    forall i | 0 <= i < |ds[1..]| ensures !Sticks(ds[1..][i], w) {
      assert ds[1..][i] == ds[i + 1];
    }
  }

  /** A prune that succeeds keeps what is not due and joins what is. */
  lemma {:induction false} SweepIff(ds: seq<Detached>, w: World, d: Detached)
    requires SweepOk(ds, w)
    ensures d in SweepRest(ds, w) <==> d in ds && !Due(d, w)
    ensures d in ds && Due(d, w) ==> d.group in SweepJoined(ds, w)
  {
    if ds != [] {
      SweepTail(ds, w);
      SweepIff(ds[1..], w, d);
      assert ds == [ds[0]] + ds[1..];
    }
  }

  /** A sweep that fails has dealt with the groups before the first that cannot be joined, and no other. */
  lemma {:induction false} SweepFailsAt(ds: seq<Detached>, w: World, i: nat)
    requires i < |ds| && Sticks(ds[i], w) && SweepOk(ds[..i], w)
    ensures !SweepOk(ds, w)
    ensures SweepJoined(ds, w) == SweepJoined(ds[..i], w)
    ensures SweepRest(ds, w) == SweepRest(ds[..i], w) + ds[i..]
  {
    if i > 0 {
      assert ds[0] == ds[..i][0] && ds[1..][..i - 1] == ds[..i][1..];
      SweepTail(ds[..i], w);
      SweepFailsAt(ds[1..], w, i - 1);
      if !Due(ds[0], w) {
        assert [ds[0]] + (SweepRest(ds[..i][1..], w) + ds[i..]) == [ds[0]] + SweepRest(ds[..i][1..], w) + ds[i..];
      }
    } else {
      assert ds[..0] == [] && ds[0..] == ds;
    }
  }

  // ---------------------------------------------------------------- one step

  /** The step leaves a detached group where it is. */
  predicate LeftAlone(e: Engine, step: Step, d: Detached) {
    Pruning(step) ==> SweepOk(e.rt.detached, step.world) && !Due(d, step.world)
  }

  /** The step detaches the group and sets this deadline. */
  predicate DetachedBy(e: Engine, step: Step, d: Detached) {
    step.Detach? && Detaching(e.pc) && d.group in e.rt.groups && d.group.role == RoleAt(e.pc) && d.deadline == step.deadline
  }

  lemma DetachStepIff(e: Engine, deadline: nat, d: Detached)
    requires Enabled(e, Detach(deadline))
    ensures d in Apply(e, Detach(deadline)).rt.detached <==> d in e.rt.detached || DetachedBy(e, Detach(deadline), d)
  {
    var gs := TM.OfRole(e.rt.groups, RoleAt(e.pc));
    HeldIff(gs, deadline, d);
    TM.MemberOfRole(e.rt.groups, RoleAt(e.pc), d.group);
    assert Apply(e, Detach(deadline)).rt.detached == e.rt.detached + Hold(gs, deadline);
  }

  lemma PruningStepIff(e: Engine, step: Step, d: Detached)
    requires Enabled(e, step) && Pruning(step)
    ensures d in Apply(e, step).rt.detached <==> d in e.rt.detached && LeftAlone(e, step, d)
  {
    var t := Apply(e, step).rt.detached;
    assert t == Pruned(e.rt, step.world).detached;
    if SweepOk(e.rt.detached, step.world) {
      SweepIff(e.rt.detached, step.world, d);
    }
  }

  lemma StepIff(e: Engine, step: Step, d: Detached)
    requires Enabled(e, step)
    ensures d in Apply(e, step).rt.detached <==> (d in e.rt.detached && LeftAlone(e, step, d)) || DetachedBy(e, step, d)
  {
    if step.Detach? {
      DetachStepIff(e, step.deadline, d);
    } else if Pruning(step) {
      PruningStepIff(e, step, d);
    } else {
      assert Apply(e, step).rt.detached == e.rt.detached;
    }
  }

  /** What is due is joined by the first prune that succeeds, and no longer detached after it. */
  lemma DueIsJoined(e: Engine, step: Step, d: Detached)
    requires Enabled(e, step) && Pruning(step) && d in e.rt.detached && SweepOk(e.rt.detached, step.world)
    requires Due(d, step.world)
    ensures d !in Apply(e, step).rt.detached && d.group in Apply(e, step).rt.joined
  {
    PruningStepIff(e, step, d);
    SweepIff(e.rt.detached, step.world, d);
    assert Apply(e, step).rt.joined == Pruned(e.rt, step.world).joined;
  }

  // --------------------------------------------------------------- whole runs

  /** Detached at some step of the run, or from the start, and left alone by every step since. */
  predicate HeldSince(start: Engine, steps: seq<Step>, d: Detached, before: bool)
    decreases |steps|
  {
    if steps == [] then before
    else
      Enabled(start, steps[0]) &&
      HeldSince(Apply(start, steps[0]), steps[1..], d,
                (before && LeftAlone(start, steps[0], d)) || DetachedBy(start, steps[0], d))
  }

  /**
   * Over any run of reloads: a group is detached with a deadline exactly if the step that moved it out
   * of the manager set this deadline, and every prune since then succeeded, before the deadline and
   * without finding the group ended.
   */
  lemma {:induction false} DetachedIff(start: Engine, e: Engine, steps: seq<Step>, d: Detached)
    requires Reachable(start, e, steps)
    ensures d in e.rt.detached <==> HeldSince(start, steps, d, d in start.rt.detached)
    decreases |steps|
  {
    if steps != [] {
      StepIff(start, steps[0], d);
      DetachedIff(Apply(start, steps[0]), e, steps[1..], d);
    }
  }

  /** The prunes of a run all succeed, before the deadline, and never find the group ended. */
  predicate UndisturbedBy(start: Engine, steps: seq<Step>, d: Detached)
    decreases |steps|
  {
    steps == [] ||
    (Enabled(start, steps[0]) && LeftAlone(start, steps[0], d) && UndisturbedBy(Apply(start, steps[0]), steps[1..], d))
  }

  /** A detached group is never stopped early. */
  lemma {:induction false} KeptUntilDeadline(start: Engine, e: Engine, steps: seq<Step>, d: Detached)
    requires Reachable(start, e, steps) && d in start.rt.detached && UndisturbedBy(start, steps, d)
    ensures d in e.rt.detached
    decreases |steps|
  {
    if steps != [] {
      StepIff(start, steps[0], d);
      KeptUntilDeadline(Apply(start, steps[0]), e, steps[1..], d);
    }
  }
}

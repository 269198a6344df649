/**
 * The role-tagged task groups of an engine.  Several operations drain the list and stop at the
 * first join that fails; whatever was not joined by then is gone.
 */
module TaskManager {
  import opened Common
  import opened Roles

  /** `epoch` is the processing epoch a group was started for, 0 for groups outside of processing. */
  datatype Group = Group(id: nat, role: TaskRole, epoch: nat)

  /** What the environment decides during one operation: ended groups, groups whose join fails. */
  datatype World = World(finished: set<nat>, broken: set<nat>, now: nat)

  /** Nothing ends and nothing fails. */
  const CALM: World := World({}, {}, 0)

  function OfRole(gs: seq<Group>, role: TaskRole): seq<Group> {
    if gs == [] then []
    else if gs[0].role == role then [gs[0]] + OfRole(gs[1..], role)
    else OfRole(gs[1..], role)
  }

  function Without(gs: seq<Group>, role: TaskRole): seq<Group> {
    if gs == [] then []
    else if gs[0].role == role then Without(gs[1..], role)
    else [gs[0]] + Without(gs[1..], role)
  }

  function Running(gs: seq<Group>, w: World): seq<Group> {
    if gs == [] then []
    else if gs[0].id in w.finished then Running(gs[1..], w)
    else [gs[0]] + Running(gs[1..], w)
  }

  function Ended(gs: seq<Group>, w: World): seq<Group> {
    if gs == [] then []
    else if gs[0].id in w.finished then [gs[0]] + Ended(gs[1..], w)
    else Ended(gs[1..], w)
  }

  /** No group of the role has a failing join. */
  predicate StopOk(gs: seq<Group>, role: TaskRole, w: World) {
    forall i :: 0 <= i < |gs| && gs[i].role == role ==> gs[i].id !in w.broken
  }

  /** Groups of the role that are stopped and joined before a join fails, if one does. */
  function StopJoined(gs: seq<Group>, role: TaskRole, w: World): seq<Group> {
    if gs == [] then []
    else if gs[0].role != role then StopJoined(gs[1..], role, w)
    else if gs[0].id in w.broken then []
    else [gs[0]] + StopJoined(gs[1..], role, w)
  }

  /** All the others, in order: kept when every join succeeds, dropped unjoined when one fails. */
  function StopRest(gs: seq<Group>, role: TaskRole, w: World): seq<Group> {
    if gs == [] then []
    else if gs[0].role != role then [gs[0]] + StopRest(gs[1..], role, w)
    else if gs[0].id in w.broken then gs
    else StopRest(gs[1..], role, w)
  }

  /** `joined` and `lost` are history: groups that ended under control, groups dropped unjoined. */
  class TaskManager {
    var groups: seq<Group>
    ghost var joined: multiset<Group>
    ghost var lost: multiset<Group>

    constructor ()
      ensures groups == [] && joined == multiset{} && lost == multiset{}
    {
      groups := [];
      joined, lost := multiset{}, multiset{};
    }

    method Append(g: Group)
      modifies this
      ensures groups == old(groups) + [g] && joined == old(joined) && lost == old(lost)
    {
      groups := groups + [g];
    }

    method DetachRole(role: TaskRole) returns (detached: seq<Group>)
      modifies this
      ensures groups == Without(old(groups), role) && detached == OfRole(old(groups), role)
      ensures joined == old(joined) && lost == old(lost)
    {
      detached := [];
      var kept: seq<Group> := [];
      var all := groups;
      var i := 0;
      while i < |all|
        invariant 0 <= i <= |all| && all == old(groups) && joined == old(joined) && lost == old(lost)
        invariant kept + Without(all[i..], role) == Without(all, role)
        invariant detached + OfRole(all[i..], role) == OfRole(all, role)
      {
        assert all[i..][1..] == all[i + 1..];
        if all[i].role == role {
          Regroup(detached, all[i], OfRole(all[i + 1..], role));
          detached := detached + [all[i]];
        } else {
          Regroup(kept, all[i], Without(all[i + 1..], role));
          kept := kept + [all[i]];
        }
        i := i + 1;
      }
      groups := kept;
    }

    method PruneFinished(w: World)
      modifies this
      ensures groups == Running(old(groups), w) && joined == old(joined) + multiset(Ended(old(groups), w))
      ensures lost == old(lost)
    {
      var kept: seq<Group> := [];
      var all := groups;
      ghost var ended: seq<Group> := [];
      var i := 0;
      while i < |all|
        invariant 0 <= i <= |all| && all == old(groups) && lost == old(lost) && joined == old(joined)
        invariant kept + Running(all[i..], w) == Running(all, w)
        invariant ended + Ended(all[i..], w) == Ended(all, w)
      {
        assert all[i..][1..] == all[i + 1..];
        if all[i].id in w.finished {
          Regroup(ended, all[i], Ended(all[i + 1..], w));
          ended := ended + [all[i]];
        } else {
          Regroup(kept, all[i], Running(all[i + 1..], w));
          kept := kept + [all[i]];
        }
        i := i + 1;
      }
      groups := kept;
      joined := joined + multiset(ended);
    }

    method StopRole(role: TaskRole, w: World) returns (ok: bool)
      modifies this
      ensures ok <==> StopOk(old(groups), role, w)
      ensures joined == old(joined) + multiset(StopJoined(old(groups), role, w))
      ensures groups == if ok then StopRest(old(groups), role, w) else []
      ensures lost == if ok then old(lost) else old(lost) + multiset(StopRest(old(groups), role, w))
    {
      var kept: seq<Group> := [];
      var drain := groups;
      ghost var ended: seq<Group> := [];
      groups := [];
      while drain != []
        invariant groups == [] && lost == old(lost) && joined == old(joined)
        invariant StopOk(old(groups), role, w) <==> StopOk(drain, role, w)
        invariant StopJoined(old(groups), role, w) == ended + StopJoined(drain, role, w)
        invariant StopRest(old(groups), role, w) == kept + StopRest(drain, role, w)
        decreases |drain|
      {
        var rg := drain[0];
        if rg.role == role {
          if rg.id in w.broken {
            assert StopJoined(drain, role, w) == [] && StopRest(drain, role, w) == drain;
            assert ended + [] == ended && !StopOk(drain, role, w);
            joined := joined + multiset(ended);
            lost := lost + multiset(kept + drain);
            return false;
          }
          Regroup(ended, rg, StopJoined(drain[1..], role, w));
          ended := ended + [rg];
        } else {
          Regroup(kept, rg, StopRest(drain[1..], role, w));
          kept := kept + [rg];
        }
        StopOkTail(drain, role, w);
        drain := drain[1..];
      }
      assert ended + [] == ended && kept + [] == kept;
      groups := kept;
      joined := joined + multiset(ended);
      ok := true;
    }

    /** Sends the isolation command to all groups; `deaf` groups refuse commands. */
    static method IsolateAll(rs: seq<Group>, deaf: set<nat>) returns (ok: bool, trace: seq<Command>, done: nat)
      ensures done <= |rs| && trace == Isolates(rs[..done])
      ensures forall k :: 0 <= k < done ==> rs[k].id !in deaf
      ensures if ok then done == |rs| else done < |rs| && rs[done].id in deaf
    {
      trace, done := [], 0;
      while done < |rs|
        invariant done <= |rs| && trace == Isolates(rs[..done])
        invariant forall k :: 0 <= k < done ==> rs[k].id !in deaf
      {
        if rs[done].id in deaf {
          return false, trace, done;
        }
        IsolatesNext(rs, done);
        trace := trace + [IsolateCmd(rs[done])];
        done := done + 1;
      }
      ok := true;
    }

    /** Stops and joins one group after the other. */
    static method StopAll(rs: seq<Group>, force: Option<nat>, w: World, deaf: set<nat>)
      returns (ok: bool, trace: seq<Command>, done: nat)
      ensures done <= |rs| && forall k :: 0 <= k < done ==> rs[k].id !in deaf && rs[k].id !in w.broken
      ensures ok ==> done == |rs| && trace == Stops(rs, force)
      ensures !ok ==> done < |rs| && StopCut(rs, force, w, deaf, done, trace)
    {
      trace, done := [], 0;
      while done < |rs|
        invariant done <= |rs| && trace == Stops(rs[..done], force)
        invariant forall k :: 0 <= k < done ==> rs[k].id !in deaf && rs[k].id !in w.broken
      {
        var g := rs[done];
        if g.id in deaf {
          return false, trace, done;
        }
        StopsNext(rs, force, done);
        trace := trace + [StopCmd(g, LimitFor(g, force))];
        if g.id in w.broken {
          return false, trace, done;
        }
        trace := trace + [Joined(g)];
        done := done + 1;
      }
      assert rs[..|rs|] == rs;
      ok := true;
    }

    /**
     * Isolates all groups, then stops and joins them one by one.  After a failure the list stays
     * behind, reversed; what was done is the full trace up to the first group that failed.
     */
    method StopRoleGroups(force: Option<nat>, w: World, deaf: set<nat>) returns (ok: bool, trace: seq<Command>)
      modifies this`groups
      ensures ok ==> groups == [] && trace == ShutdownTrace(old(groups), force)
      ensures !ok ==> groups == Reverse(old(groups)) && CutShort(groups, force, w, deaf, trace)
      ensures !ok ==> trace <= ShutdownTrace(old(groups), force)
      ensures ok <==> forall g :: g in old(groups) ==> g.id !in w.broken && g.id !in deaf
    {
      forall g ensures g in Reverse(groups) <==> g in groups {
        ReverseMembers(groups, g);
      }
      groups := ReverseInPlace(groups);
      var done;
      ok, trace, done := IsolateAll(groups, deaf);
      if ok {
        assert groups[..|groups|] == groups;
        var stopped, rest;
        stopped, rest, done := StopAll(groups, force, w, deaf);
        ok, trace := stopped, trace + rest;
        if !ok {
          RegroupEnd(Isolates(groups), Stops(groups[..done], force), StopCmd(groups[done], LimitFor(groups[done], force)));
        }
      }
      if ok {
        groups := [];
      } else {
        assert CutAt(groups, force, w, deaf, trace, done);
        CutIsPrefix(groups, force, w, deaf, trace);
      }
    }

    static method ReverseInPlace(gs: seq<Group>) returns (r: seq<Group>)
      ensures r == Reverse(gs)
    {
      r := [];
      var i := 0;
      while i < |gs|
        invariant 0 <= i <= |gs| && Reverse(gs) == Reverse(gs[i..]) + r
      {
        assert gs[i..][1..] == gs[i + 1..];
        r := [gs[i]] + r;
        i := i + 1;
      }
    }
  }

  lemma {:induction false} ReverseMembers(gs: seq<Group>, g: Group)
    ensures g in Reverse(gs) <==> g in gs
  {
    if gs != [] {
      ReverseMembers(gs[1..], g);
      assert gs == [gs[0]] + gs[1..];
    }
  }

  // ------------------------------------------------------------ full shutdown

  /** What the shutdown of all groups does, in order. */
  datatype Command = IsolateCmd(group: Group) | StopCmd(group: Group, limit: Option<nat>) | Joined(group: Group)

  function Reverse(gs: seq<Group>): (r: seq<Group>)
    ensures |r| == |gs|
  {
    if gs == [] then [] else Reverse(gs[1..]) + [gs[0]]
  }

  /** Only acceptors are stopped against a clock, and only when a limit is given. */
  function LimitFor(g: Group, force: Option<nat>): Option<nat> { if g.role.Acceptor? then force else None }

  function Isolates(gs: seq<Group>): (t: seq<Command>)
    ensures |t| == |gs|
  {
    if gs == [] then [] else [IsolateCmd(gs[0])] + Isolates(gs[1..])
  }

  function Stops(gs: seq<Group>, force: Option<nat>): (t: seq<Command>)
    ensures |t| == 2 * |gs|
  {
    if gs == [] then []
    else [StopCmd(gs[0], LimitFor(gs[0], force)), Joined(gs[0])] + Stops(gs[1..], force)
  }

  function ShutdownTrace(gs: seq<Group>, force: Option<nat>): seq<Command> {
    Isolates(Reverse(gs)) + Stops(Reverse(gs), force)
  }

  lemma {:induction false} IsolatesAppend(gs: seq<Group>, hs: seq<Group>)
    ensures Isolates(gs + hs) == Isolates(gs) + Isolates(hs)
  {
    if gs == [] {
      assert gs + hs == hs;
    } else {
      assert (gs + hs)[1..] == gs[1..] + hs;
      IsolatesAppend(gs[1..], hs);
    }
  }

  lemma {:induction false} StopsAppend(gs: seq<Group>, hs: seq<Group>, force: Option<nat>)
    ensures Stops(gs + hs, force) == Stops(gs, force) + Stops(hs, force)
  {
    if gs == [] {
      assert gs + hs == hs;
    } else {
      assert (gs + hs)[1..] == gs[1..] + hs;
      StopsAppend(gs[1..], hs, force);
    }
  }

  lemma IsolatesNext(rs: seq<Group>, i: nat)
    requires i < |rs|
    ensures Isolates(rs[..i + 1]) == Isolates(rs[..i]) + [IsolateCmd(rs[i])]
  {
    assert rs[..i + 1] == rs[..i] + [rs[i]];
    IsolatesAppend(rs[..i], [rs[i]]);
    assert [rs[i]][1..] == [];
  }

  lemma StopsNext(rs: seq<Group>, force: Option<nat>, i: nat)
    requires i < |rs|
    ensures Stops(rs[..i + 1], force)
            == Stops(rs[..i], force) + [StopCmd(rs[i], LimitFor(rs[i], force))] + [Joined(rs[i])]
  {
    assert rs[..i + 1] == rs[..i] + [rs[i]];
    StopsAppend(rs[..i], [rs[i]], force);
    assert [rs[i]][1..] == [];
  }

  /** Group `i` is the first that refuses the stop command, or cannot be joined after it. */
  predicate StopCut(rs: seq<Group>, force: Option<nat>, w: World, deaf: set<nat>, i: nat, trace: seq<Command>)
    requires i < |rs|
  {
    && (rs[i].id in deaf || rs[i].id in w.broken)
    && trace == Stops(rs[..i], force) + if rs[i].id in deaf then [] else [StopCmd(rs[i], LimitFor(rs[i], force))]
  }

  /** A shutdown that group `i` cuts short, while isolating or while stopping. */
  predicate CutAt(rs: seq<Group>, force: Option<nat>, w: World, deaf: set<nat>, trace: seq<Command>, i: int) {
    && 0 <= i < |rs|
    && if exists g :: g in rs && g.id in deaf
       then rs[i].id in deaf && (forall k :: 0 <= k < i ==> rs[k].id !in deaf) && trace == Isolates(rs[..i])
       else
         && rs[i].id in w.broken && (forall k :: 0 <= k < i ==> rs[k].id !in w.broken)
         && trace == Isolates(rs) + Stops(rs[..i], force) + [StopCmd(rs[i], LimitFor(rs[i], force))]
  }

  ghost predicate CutShort(rs: seq<Group>, force: Option<nat>, w: World, deaf: set<nat>, trace: seq<Command>) {
    exists i :: CutAt(rs, force, w, deaf, trace, i)
  }

  lemma CutIsPrefix(rs: seq<Group>, force: Option<nat>, w: World, deaf: set<nat>, trace: seq<Command>)
    requires CutShort(rs, force, w, deaf, trace)
    ensures trace <= Isolates(rs) + Stops(rs, force)
  {
    var i :| CutAt(rs, force, w, deaf, trace, i);
    assert rs == rs[..i] + rs[i..];
    IsolatesAppend(rs[..i], rs[i..]);
    StopsAppend(rs[..i], rs[i..], force);
    assert Stops(rs[i..], force)[0] == StopCmd(rs[i], LimitFor(rs[i], force));
  }

  lemma {:induction false} ReverseAt(gs: seq<Group>, k: nat)
    requires k < |gs|
    ensures Reverse(gs)[|gs| - 1 - k] == gs[k]
  {
    if k > 0 {
      ReverseAt(gs[1..], k - 1);
    }
  }

  lemma {:induction false} IsolatesAt(gs: seq<Group>, k: nat)
    requires k < |gs|
    ensures Isolates(gs)[k] == IsolateCmd(gs[k])
  {
    if k > 0 {
      IsolatesAt(gs[1..], k - 1);
    }
  }

  lemma {:induction false} StopsAt(gs: seq<Group>, force: Option<nat>, k: nat)
    requires k < |gs|
    ensures Stops(gs, force)[2 * k] == StopCmd(gs[k], LimitFor(gs[k], force))
    ensures Stops(gs, force)[2 * k + 1] == Joined(gs[k])
  {
    if k > 0 {
      StopsAt(gs[1..], force, k - 1);
    }
  }

  /** Position of the commands for the group registered as number `i`. */
  function IsolatePos(n: nat, i: nat): nat requires i < n { n - 1 - i }
  function StopPos(n: nat, i: nat): nat requires i < n { n + 2 * (n - 1 - i) }
  function JoinPos(n: nat, i: nat): nat requires i < n { n + 2 * (n - 1 - i) + 1 }

  /**
   * Shape of a shutdown: every group is isolated before any group is stopped, and groups are
   * stopped and joined one after the other in reverse registration order, the acceptors within the
   * given limit and the others without one.
   */
  lemma ShutdownShape(gs: seq<Group>, force: Option<nat>, i: nat)
    requires i < |gs|
    ensures var t, n := ShutdownTrace(gs, force), |gs|;
            && |t| == 3 * n
            && t[IsolatePos(n, i)] == IsolateCmd(gs[i])
            && t[StopPos(n, i)] == StopCmd(gs[i], if gs[i].role.Acceptor? then force else None)
            && t[JoinPos(n, i)] == Joined(gs[i])
    ensures forall j :: 0 <= j < |gs| ==> IsolatePos(|gs|, i) < StopPos(|gs|, j)
    ensures forall j :: i < j < |gs| ==> JoinPos(|gs|, j) < StopPos(|gs|, i)
  {
    var r, k := Reverse(gs), |gs| - 1 - i;
    ReverseAt(gs, i);
    IsolatesAt(r, k);
    StopsAt(r, force, k);
  }

  lemma StopOkTail(gs: seq<Group>, role: TaskRole, w: World)
    requires gs != [] && (gs[0].role != role || gs[0].id !in w.broken)
    ensures StopOk(gs, role, w) <==> StopOk(gs[1..], role, w)
  {
    if StopOk(gs[1..], role, w) {
      forall i | 0 <= i < |gs| && gs[i].role == role ensures gs[i].id !in w.broken {
        assert i > 0 ==> gs[i] == gs[1..][i - 1];
      }
    } else {
      var i :| 0 <= i < |gs[1..]| && gs[1..][i].role == role && gs[1..][i].id in w.broken;
      assert gs[i + 1].role == role && gs[i + 1].id in w.broken;
    }
  }

  // ------------------------------------------------------------- list lemmas

  lemma {:induction false} SplitByRole(gs: seq<Group>, role: TaskRole)
    ensures multiset(OfRole(gs, role)) + multiset(Without(gs, role)) == multiset(gs)
  {
    if gs != [] {
      SplitByRole(gs[1..], role);
      assert gs == [gs[0]] + gs[1..];
    }
  }

  lemma {:induction false} SplitByWorld(gs: seq<Group>, w: World)
    ensures multiset(Running(gs, w)) + multiset(Ended(gs, w)) == multiset(gs)
  {
    if gs != [] {
      SplitByWorld(gs[1..], w);
      assert gs == [gs[0]] + gs[1..];
    }
  }

  /** Stopping a role accounts for every group, whether or not it succeeds. */
  lemma {:induction false} StopConserves(gs: seq<Group>, role: TaskRole, w: World)
    ensures multiset(StopJoined(gs, role, w)) + multiset(StopRest(gs, role, w)) == multiset(gs)
  {
    if gs != [] {
      StopConserves(gs[1..], role, w);
      assert gs == [gs[0]] + gs[1..];
    }
  }

  lemma {:induction false} StopOkSplits(gs: seq<Group>, role: TaskRole, w: World)
    requires StopOk(gs, role, w)
    ensures StopRest(gs, role, w) == Without(gs, role) && StopJoined(gs, role, w) == OfRole(gs, role)
  {
    if gs != [] {
      StopOkTail(gs, role, w);
      StopOkSplits(gs[1..], role, w);
    }
  }

  /** Group `i` is the first of the role that cannot be joined. */
  predicate FirstBroken(gs: seq<Group>, role: TaskRole, w: World, i: nat) {
    i < |gs| && gs[i].role == role && gs[i].id in w.broken && StopOk(gs[..i], role, w)
  }

  /** A failing stop has joined the role's groups before the one that failed, and touched nothing after it. */
  lemma {:induction false} StopFailsAt(gs: seq<Group>, role: TaskRole, w: World, i: nat)
    requires FirstBroken(gs, role, w, i)
    ensures !StopOk(gs, role, w)
    ensures StopJoined(gs, role, w) == OfRole(gs[..i], role)
    ensures StopRest(gs, role, w) == Without(gs[..i], role) + gs[i..]
  {
    if i > 0 {
      assert gs[0] == gs[..i][0] && gs[1..][..i - 1] == gs[..i][1..];
      StopOkTail(gs[..i], role, w);
      StopFailsAt(gs[1..], role, w, i - 1);
      if gs[0].role != role {
        assert [gs[0]] + (Without(gs[..i][1..], role) + gs[i..]) == [gs[0]] + Without(gs[..i][1..], role) + gs[i..];
      }
    } else {
      assert gs[..0] == [] && gs[0..] == gs;
    }
  }

  lemma {:induction false} OfRoleWithout(gs: seq<Group>, gone: TaskRole, role: TaskRole)
    ensures OfRole(Without(gs, gone), role) == if role == gone then [] else OfRole(gs, role)
  {
    if gs != [] {
      OfRoleWithout(gs[1..], gone, role);
      if gs[0].role != gone {
        assert ([gs[0]] + Without(gs[1..], gone))[1..] == Without(gs[1..], gone);
      }
    }
  }

  lemma {:induction false} OfRoleRunning(gs: seq<Group>, w: World, role: TaskRole)
    ensures OfRole(Running(gs, w), role) == Running(OfRole(gs, role), w)
  {
    if gs != [] {
      OfRoleRunning(gs[1..], w, role);
      if gs[0].id !in w.finished {
        assert ([gs[0]] + Running(gs[1..], w))[1..] == Running(gs[1..], w);
      }
      if gs[0].role == role {
        assert ([gs[0]] + OfRole(gs[1..], role))[1..] == OfRole(gs[1..], role);
      }
    }
  }

  lemma {:induction false} OfRoleAppend(gs: seq<Group>, hs: seq<Group>, role: TaskRole)
    ensures OfRole(gs + hs, role) == OfRole(gs, role) + OfRole(hs, role)
  {
    if gs == [] {
      assert gs + hs == hs;
    } else {
      assert (gs + hs)[1..] == gs[1..] + hs;
      OfRoleAppend(gs[1..], hs, role);
    }
  }

  /** The filters keep the order of the list. */
  lemma {:induction false} FiltersAppend(gs: seq<Group>, hs: seq<Group>, role: TaskRole, w: World)
    ensures Without(gs + hs, role) == Without(gs, role) + Without(hs, role)
    ensures Running(gs + hs, w) == Running(gs, w) + Running(hs, w)
    ensures Ended(gs + hs, w) == Ended(gs, w) + Ended(hs, w)
  {
    if gs == [] {
      assert gs + hs == hs;
    } else {
      assert (gs + hs)[1..] == gs[1..] + hs;
      FiltersAppend(gs[1..], hs, role, w);
    }
  }

  lemma {:induction false} MemberOfRole(gs: seq<Group>, role: TaskRole, g: Group)
    ensures g in OfRole(gs, role) <==> g in gs && g.role == role
  {
    if gs != [] {
      MemberOfRole(gs[1..], role, g);
      assert gs == [gs[0]] + gs[1..];
    }
  }

  lemma {:induction false} MemberOfRest(gs: seq<Group>, role: TaskRole, w: World, g: Group)
    ensures g in Without(gs, role) <==> g in gs && g.role != role
    ensures g in Running(gs, w) <==> g in gs && g.id !in w.finished
  {
    if gs != [] {
      MemberOfRest(gs[1..], role, w, g);
      assert gs == [gs[0]] + gs[1..];
    }
  }

  /** Nobody ended, nothing is filtered out. */
  lemma {:induction false} RunningAll(gs: seq<Group>, w: World)
    requires forall g :: g in gs ==> g.id !in w.finished
    ensures Running(gs, w) == gs
  {
    if gs != [] {
      RunningAll(gs[1..], w);
      assert gs == [gs[0]] + gs[1..];
    }
  }
}

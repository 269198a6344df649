/**
 * The daemon's exit loop and its hot reloads side by side.  A reload is handled inside the loop, so
 * polls happen between reloads only; but a reload removes ended groups, and with them what the exit
 * policy watches for.
 */
module DaemonReload {
  import opened Common
  import opened Roles
  import TM = TaskManager
  import ER = EngineRuntime
  import RI = ReloadInvariant
  import RL = ReloadLosses
  import EP = ExitPolicy

  datatype System = System(engine: ER.Engine, loop: EP.Loop)

  datatype Event =
    | Reloading(step: ER.Step)
    | Polled(done: set<nat>, now: nat, later: nat, signal: bool, refused: set<nat>)

  function InputOf(e: ER.Engine, ev: Event): EP.Input
    requires ev.Polled?
  {
    EP.Input(e.rt.groups, ev.done, ev.now, ev.later, ev.signal, ev.refused)
  }

  predicate Enabled(s: System, ev: Event) {
    match ev
    case Reloading(step) => s.loop.status.Going? && s.loop.phase.Running? && ER.Enabled(s.engine, step)
    case Polled(_, _, _, _, _) => s.engine.pc.Idle?
  }

  function Apply(s: System, ev: Event): System
    requires Enabled(s, ev)
  {
    match ev
    case Reloading(step) => s.(engine := ER.Apply(s.engine, step))
    case Polled(_, _, _, _, _) => s.(loop := EP.Poll(EP.Daemon, s.loop, InputOf(s.engine, ev)))
  }

  ghost predicate Reachable(start: System, s: System, evs: seq<Event>)
    decreases |evs|
  {
    if evs == [] then s == start else Enabled(start, evs[0]) && Reachable(Apply(start, evs[0]), s, evs[1..])
  }

  predicate NoSignal(evs: seq<Event>) { forall i :: 0 <= i < |evs| && evs[i].Polled? ==> !evs[i].signal }

  /** The loop watches for pickers and there are none; it goes on, or there was nothing left to watch. */
  ghost predicate Blind(s: System) {
    && RI.NoneOf(s.engine.rt.groups, Picker) && s.loop.phase.Running?
    && (s.loop.status.Going? || (s.loop.status.Errored? && s.engine.rt.groups == []))
  }

  lemma BlindStep(s: System, ev: Event)
    requires Blind(s) && Enabled(s, ev) && (ev.Polled? ==> !ev.signal)
    ensures Blind(Apply(s, ev))
  {
    match ev
    case Reloading(step) => RL.NoPickerStep(s.engine, step);
    case Polled(_, _, _, _, _) =>
      forall i | 0 <= i < |s.engine.rt.groups| ensures !s.engine.rt.groups[i].role.Picker? {
        assert s.engine.rt.groups[i] in s.engine.rt.groups;
      }
  }

  /**
   * A daemon that lost its pickers to a reload never stops by itself, whatever else happens: its loop
   * goes on for ever, or ends with an error at a poll that finds no group at all.
   */
  lemma {:induction false} BlindForever(start: System, s: System, evs: seq<Event>)
    requires Blind(start) && Reachable(start, s, evs) && NoSignal(evs)
    ensures Blind(s)
    decreases |evs|
  {
    if evs != [] {
      BlindStep(start, evs[0]);
      BlindForever(Apply(start, evs[0]), s, evs[1..]);
    }
  }

  /** Every registered picker has ended. */
  predicate PickersEnded(gs: seq<TM.Group>, finished: set<nat>) {
    forall g :: g in gs && g.role.Picker? ==> g.id in finished
  }

  /** Isolating removes the last picker exactly if all of them have ended by then. */
  lemma IsolateBlindsIff(e: ER.Engine, w: TM.World, commandOk: bool)
    requires e.pc.Isolating?
    ensures RI.NoneOf(ER.Apply(e, ER.Isolate(w, commandOk)).rt.groups, Picker) <==> PickersEnded(e.rt.groups, w.finished)
  {
    var gs := e.rt.groups;
    assert ER.Apply(e, ER.Isolate(w, commandOk)).rt.groups == TM.Running(gs, w);
    forall g ensures g in TM.Running(gs, w) <==> g in gs && g.id !in w.finished {
      TM.MemberOfRest(gs, Parser, w, g);
    }
  }

  /** A poll that comes before the reload notices that all pickers have ended. */
  lemma PollNotices(s: System, ev: Event)
    requires s.loop.status.Going? && s.loop.phase.Running? && ev.Polled? && Enabled(s, ev)
    requires PickersEnded(s.engine.rt.groups, ev.done) && !RI.NoneOf(s.engine.rt.groups, Picker)
    ensures var t := Apply(s, ev).loop; !t.status.Going? || (t.phase.Quiescing? && t.startedAt == ev.later)
  {
    var gs := s.engine.rt.groups;
    var g :| g in gs && g.role == Picker;
    var i :| 0 <= i < |gs| && gs[i] == g;
    assert EP.RolePresent(gs, Picker);
    forall k | 0 <= k < |gs| && gs[k].role == Picker ensures gs[k].id in ev.done {
      assert gs[k] in gs;
    }
  }

  /** A signal still stops a daemon that has lost its pickers, as long as there is a group left to stop. */
  lemma SignalStillStops(s: System, ev: Event)
    requires s.loop.status.Going? && ev.Polled? && Enabled(s, ev) && ev.signal
    ensures Apply(s, ev).loop.status == if s.engine.rt.groups == [] then EP.Errored else EP.Stopping(EP.Signal)
  {
  }

  /**
   * The race that decides whether a daemon whose pickers have all ended still stops by itself: if a
   * reload isolates first, no later run without a signal ever reaches the shutdown.
   */
  lemma ReloadFirstDisablesExit(start: System, w: TM.World, commandOk: bool, s: System, evs: seq<Event>)
    requires start.engine.pc.Isolating? && start.loop.phase.Running? && start.loop.status.Going?
    requires PickersEnded(start.engine.rt.groups, w.finished)
    requires Reachable(Apply(start, Reloading(ER.Isolate(w, commandOk))), s, evs) && NoSignal(evs)
    ensures s.loop.phase.Running?
    ensures s.loop.status.Going? || (s.loop.status.Errored? && s.engine.rt.groups == [])
  {
    IsolateBlindsIff(start.engine, w, commandOk);
    BlindForever(Apply(start, Reloading(ER.Isolate(w, commandOk))), s, evs);
  }
}

/**
 * Why an epoch whose channels are closed drains: every receive, in whichever worker, and every report
 * taken by the tracker uses up one unit of a finite amount of work; there is always one to be done
 * until none is left; and then the tracker is quiesced.
 */
module DrainProgress {
  import opened Common
  import opened Roles
  import RD = ReloadDrain
  import SD = SinkDrain
  import PL = ParserLoop
  import opened GracefulDrain

  // ------------------------------------------------------------ the work left

  /** What a loop has yet to receive, and one for its report. */
  function SinkLoad(w: SD.Worker): nat { if w.mode.Looping? then SD.Work(w.channels) + 1 else 0 }

  function ParserLoad(p: PL.Parser): nat { if p.mode.Looping? then |p.channel.queue| + 2 else 0 }

  function Load(s: Epoch, i: nat): nat
    requires Sized(s) && i < |s.sinks|
  {
    var role := s.drain.workers[i].role;
    if SinkRole(role) then SinkLoad(s.sinks[i]) else if role.Parser? then ParserLoad(s.parsers[i]) else 0
  }

  function Loads(s: Epoch): (r: seq<nat>)
    requires Sized(s)
    ensures |r| == |s.sinks| && forall i :: 0 <= i < |r| ==> r[i] == Load(s, i)
  {
    seq(|s.sinks|, i requires 0 <= i < |s.sinks| => Load(s, i))
  }

  /** Receives and reports of all loops, and events the tracker has yet to take. */
  function Remaining(s: Epoch): nat
    requires Sized(s)
  {
    Sum(Loads(s)) + |s.drain.queue|
  }

  // -------------------------------------------------------------- conditions

  /** Nothing more can be sent to the worker. */
  predicate SinkClosed(w: SD.Worker) {
    forall c :: 0 <= c < |w.channels| ==> w.channels[c].shut || w.channels[c].senders == 0
  }

  predicate Closed(s: Epoch)
    requires Sized(s)
  {
    forall i :: 0 <= i < |s.sinks| ==>
      && (SinkRole(s.drain.workers[i].role) ==> SinkClosed(s.sinks[i]))
      && (s.drain.workers[i].role.Parser? ==> s.parsers[i].channel.senders == 0)
  }

  /** No worker has left by an error. */
  predicate Clean(s: Epoch)
    requires Sized(s)
  {
    forall i :: 0 <= i < |s.sinks| ==>
      && (SinkRole(s.drain.workers[i].role) ==> s.sinks[i].report != Some(RD.Aborted))
      && (s.drain.workers[i].role.Parser? ==> s.parsers[i].report != Some(RD.Aborted))
  }

  /** Only tracked roles take part in an epoch. */
  predicate AllTracked(s: Epoch) { forall i :: 0 <= i < |s.drain.workers| ==> RD.Tracked(s.drain.workers[i].role) }

  /** A worker's step that makes it leave by an error. */
  predicate Fails(step: Step) {
    (step.SinkStep? && SD.Errs(step.step)) || (step.ParserStep? && PL.Errs(step.work))
  }

  predicate SinkMoves(step: SD.Step) { step.Receive? || step.ReceiveEnd? }
  predicate ParserMoves(step: PL.Step) { step.Receive? || step.ReceiveEnd? || step.Halt? }

  /** A receive of a worker or of the tracker, or a stop command taken by a parser. */
  predicate Moves(step: Step) {
    match step
    case SinkStep(_, t) => SinkMoves(t)
    case ParserStep(_, t) => ParserMoves(t)
    case Receive => true
  }

  // ------------------------------------------------------------- single loops

  lemma {:induction false} WorkShut(cs: seq<SD.Channel>)
    ensures SD.Work(SD.ShutAll(cs)) == SD.Work(cs)
  {
    if cs != [] {
      WorkShut(cs[1..]);
      assert SD.ShutAll(cs)[1..] == SD.ShutAll(cs[1..]);
    }
  }

  /** With every stream ended and in order there is nothing left to receive. */
  lemma {:induction false} EndedNoWork(cs: seq<SD.Channel>)
    requires forall c :: 0 <= c < |cs| ==> cs[c].ended && SD.ChannelOk(cs[c])
    ensures SD.Work(cs) == 0
  {
    if cs != [] {
      assert SD.ChannelOk(cs[0]);
      EndedNoWork(cs[1..]);
    }
  }

  /** Events a loop adds by a step: its report. */
  function News(before: Option<RD.Outcome>, after: Option<RD.Outcome>): nat {
    if before.None? && after.Some? then 1 else 0
  }

  lemma SinkReceiveWork(w: SD.Worker, step: SD.Step)
    requires SD.Inv(w) && SD.Enabled(w, step) && SinkMoves(step)
    ensures SD.Work(SD.Apply(w, step).channels) == SD.Work(w.channels) - 1
  {
    if step.Receive? {
      var ch := w.channels[step.c];
      SD.WorkUpdate(w.channels, step.c, ch.(queue := ch.queue[1..], handed := ch.handed + [ch.queue[0]]));
    } else {
      SD.WorkUpdate(w.channels, step.c, w.channels[step.c].(ended := true));
    }
  }

  lemma SinkQuietWork(w: SD.Worker, step: SD.Step)
    requires SD.Enabled(w, step) && (step.CloneSender? || step.DropSender? || step.StopCommand?)
    ensures SD.Work(SD.Apply(w, step).channels) == SD.Work(w.channels)
    ensures SD.Apply(w, step).mode == w.mode && SD.Apply(w, step).report == w.report
  {
    if step.StopCommand? {
      WorkShut(w.channels);
    } else {
      SD.WorkUpdate(w.channels, step.c, SD.Apply(w, step).channels[step.c]);
    }
  }

  /** A sink loop's step pays for itself. */
  lemma SinkPays(w: SD.Worker, step: SD.Step)
    requires SD.Inv(w) && SinkClosed(w) && SD.Enabled(w, step) && !SD.Errs(step)
    ensures var t := SD.Apply(w, step);
            && SinkClosed(t) && (t.report == Some(RD.Aborted) ==> w.report == Some(RD.Aborted))
            && SinkLoad(t) + News(w.report, t.report) == SinkLoad(w) - (if SinkMoves(step) then 1 else 0)
  {
    SD.StepKeepsInv(w, step);
    var t := SD.Apply(w, step);
    if SinkMoves(step) {
      SinkReceiveWork(w, step);
      if t.mode.Finished? {
        SD.OpenCountZero(t.channels);
        EndedNoWork(t.channels);
      }
    } else {
      SinkQuietWork(w, step);
    }
  }

  lemma ParserPays(p: PL.Parser, step: PL.Step)
    requires PL.Inv(p) && p.channel.senders == 0 && PL.Enabled(p, step) && !PL.Errs(step)
    ensures var t := PL.Apply(p, step);
            && t.channel.senders == 0 && (t.report == Some(RD.Aborted) ==> p.report == Some(RD.Aborted))
            && ParserLoad(t) + News(p.report, t.report) <= ParserLoad(p) - (if ParserMoves(step) then 1 else 0)
  {
  }

  // ----------------------------------------------------------- the whole epoch

  /** Reporting appends the reporter's event, if there is one to append. */
  lemma ReportCounts(d: RD.Epoch, i: nat, before: Option<RD.Outcome>, after: Option<RD.Outcome>)
    requires RD.Inv(d) && i < |d.workers| && d.workers[i].alive && Agree(d.workers[i].fate, before)
    ensures var t := Reported(d, i, before, after);
            && |t.queue| == |d.queue| + News(before, after) && |t.workers| == |d.workers|
            && forall j :: 0 <= j < |d.workers| ==> t.workers[j].role == d.workers[j].role
  {
    assert RD.WorkerOk(d.number, d.workers[i]);
  }

  /** One worker's load changes, the others' stay. */
  lemma OneLoad(s: Epoch, t: Epoch, i: nat)
    requires Sized(s) && Sized(t) && |s.sinks| == |t.sinks| && i < |s.sinks|
    requires forall j :: 0 <= j < |s.sinks| && j != i ==> Load(t, j) == Load(s, j)
    ensures Sum(Loads(t)) == Sum(Loads(s)) - Load(s, i) + Load(t, i)
  {
    assert Loads(t) == Loads(s)[i := Load(t, i)];
    SumUpdate(Loads(s), i, Load(t, i));
  }

  lemma SinkStepPays(s: Epoch, i: nat, step: SD.Step)
    requires Inv(s) && Closed(s) && Clean(s) && Enabled(s, SinkStep(i, step)) && !SD.Errs(step)
    ensures var t := Apply(s, SinkStep(i, step));
            && Sized(t) && Closed(t) && Clean(t)
            && Remaining(t) == Remaining(s) - (if SinkMoves(step) then 1 else 0)
  {
    var t, w := Apply(s, SinkStep(i, step)), SD.Apply(s.sinks[i], step);
    assert WorkerInv(s, i);
    SinkPays(s.sinks[i], step);
    ReportCounts(s.drain, i, s.sinks[i].report, w.report);
    OneLoad(s, t, i);
  }

  lemma ParserStepPays(s: Epoch, i: nat, step: PL.Step)
    requires Inv(s) && Closed(s) && Clean(s) && Enabled(s, ParserStep(i, step)) && !PL.Errs(step)
    ensures var t := Apply(s, ParserStep(i, step));
            && Sized(t) && Closed(t) && Clean(t)
            && Remaining(t) <= Remaining(s) - (if ParserMoves(step) then 1 else 0)
  {
    var t, w := Apply(s, ParserStep(i, step)), PL.Apply(s.parsers[i], step);
    assert WorkerInv(s, i);
    ParserPays(s.parsers[i], step);
    ReportCounts(s.drain, i, s.parsers[i].report, w.report);
    OneLoad(s, t, i);
  }

  lemma ReceivePays(s: Epoch)
    requires Inv(s) && Closed(s) && Clean(s) && Enabled(s, Receive)
    ensures var t := Apply(s, Receive);
            Sized(t) && Closed(t) && Clean(t) && Remaining(t) == Remaining(s) - 1
  {
    var t := Apply(s, Receive);
    assert forall j :: 0 <= j < |s.sinks| ==> t.drain.workers[j].role == s.drain.workers[j].role;
    assert Loads(t) == Loads(s);
  }

  /** Every step pays for itself: receives lower the work left, and no other step raises it. */
  lemma StepPays(s: Epoch, step: Step)
    requires Inv(s) && Closed(s) && Clean(s) && Enabled(s, step) && !Fails(step)
    ensures var t := Apply(s, step);
            && Sized(t) && Closed(t) && Clean(t)
            && Remaining(t) <= Remaining(s) - (if Moves(step) then 1 else 0)
  {
    match step
    case SinkStep(i, t) => SinkStepPays(s, i, t);
    case ParserStep(i, t) => ParserStepPays(s, i, t);
    case Receive => ReceivePays(s);
  }

  lemma {:induction false} PositiveTerm(r: seq<nat>) returns (i: nat)
    requires Sum(r) > 0
    ensures i < |r| && r[i] > 0
  {
    if r[0] > 0 {
      i := 0;
    } else {
      i := PositiveTerm(r[1..]);
      i := i + 1;
    }
  }

  lemma SinkCanMove(w: SD.Worker) returns (step: SD.Step)
    requires SD.Inv(w) && SinkClosed(w) && w.mode.Looping?
    ensures SD.Enabled(w, step) && SinkMoves(step) && !SD.Errs(step)
  {
    SD.OpenCountZero(w.channels);
    var c :| 0 <= c < |w.channels| && !w.channels[c].ended;
    step := if w.channels[c].queue != [] then SD.Receive(c, true) else SD.ReceiveEnd(c);
  }

  lemma LoopingIsAlive(s: Epoch, i: nat)
    requires Inv(s) && i < |s.sinks|
    requires (SinkRole(s.drain.workers[i].role) && s.sinks[i].mode.Looping?)
             || (s.drain.workers[i].role.Parser? && s.parsers[i].mode.Looping?)
    ensures s.drain.workers[i].alive && s.drain.workers[i].fate.Unsent?
  {
    assert WorkerInv(s, i) && RD.WorkerOk(s.drain.number, s.drain.workers[i]);
  }

  /** Until nothing is left there is something to do that does not fail. */
  lemma NeverStuck(s: Epoch) returns (step: Step)
    requires Inv(s) && Closed(s) && Remaining(s) > 0
    ensures Enabled(s, step) && Moves(step) && !Fails(step)
  {
    if s.drain.queue != [] {
      assert RD.EntryOk(s.drain, 0);
      step := Receive;
    } else {
      var i := PositiveTerm(Loads(s));
      assert WorkerInv(s, i) && Load(s, i) > 0;
      LoopingIsAlive(s, i);
      if SinkRole(s.drain.workers[i].role) {
        var t := SinkCanMove(s.sinks[i]);
        step := SinkStep(i, t);
      } else {
        var p := s.parsers[i];
        step := ParserStep(i, if p.channel.queue != [] then PL.Receive(true) else PL.ReceiveEnd(true));
      }
    }
  }

  lemma NoLoadIsLeft(s: Epoch, i: nat)
    requires Inv(s) && Clean(s) && i < |s.sinks| && RD.Tracked(s.drain.workers[i].role)
    ensures Load(s, i) == 0 <==> !s.drain.workers[i].fate.Unsent?
    ensures !s.drain.workers[i].fate.Unsent? ==> s.drain.workers[i].fate.outcome.Drained?
  {
    assert WorkerInv(s, i);
  }

  lemma {:induction false} SumIsZero(r: seq<nat>)
    ensures Sum(r) == 0 <==> forall i :: 0 <= i < |r| ==> r[i] == 0
  {
    if r != [] {
      SumIsZero(r[1..]);
      assert forall i :: 0 < i < |r| ==> r[i] == r[1..][i - 1];
    }
  }

  /** Nothing left to do is the same as quiesced, as long as nobody left by an error. */
  lemma NothingRemainsIff(s: Epoch)
    requires Inv(s) && Clean(s) && AllTracked(s)
    ensures Remaining(s) == 0 <==> RD.Quiesced(s.drain.counters)
  {
    SumIsZero(Loads(s));
    forall i | 0 <= i < |s.sinks|
      ensures Load(s, i) == 0 <==> !s.drain.workers[i].fate.Unsent?
      ensures !s.drain.workers[i].fate.Unsent? ==> s.drain.workers[i].fate.outcome.Drained?
    {
      NoLoadIsLeft(s, i);
    }
    RD.QuiescedWorkers(s.drain);
    if s.drain.queue != [] {
      RD.HeadIsSent(s.drain);
    }
    if Remaining(s) == 0 {
      forall i | 0 <= i < |s.drain.workers| ensures s.drain.workers[i].fate == RD.Observed(RD.Drained) {
        assert Loads(s)[i] == 0;
      }
    }
  }

  // ------------------------------------------------------------------- runs

  function MovesIn(steps: seq<Step>): nat {
    if steps == [] then 0 else (if Moves(steps[0]) then 1 else 0) + MovesIn(steps[1..])
  }

  predicate NoneFails(steps: seq<Step>) { forall i :: 0 <= i < |steps| ==> !Fails(steps[i]) }

  lemma {:induction false} RunPays(s: Epoch, t: Epoch, steps: seq<Step>)
    requires Inv(s) && Closed(s) && Clean(s) && Reachable(s, t, steps) && NoneFails(steps)
    ensures Inv(t) && Closed(t) && Clean(t) && MovesIn(steps) + Remaining(t) <= Remaining(s)
    decreases |steps|
  {
    if steps != [] {
      StepKeepsInv(s, steps[0]);
      StepPays(s, steps[0]);
      RunPays(Apply(s, steps[0]), t, steps[1..]);
    }
  }

  lemma {:induction false} RolesStay(s: Epoch, t: Epoch, steps: seq<Step>)
    requires Inv(s) && Reachable(s, t, steps) && AllTracked(s)
    ensures AllTracked(t)
    decreases |steps|
  {
    if steps != [] {
      StepKeepsInv(s, steps[0]);
      RoleStep(s, steps[0]);
      RolesStay(Apply(s, steps[0]), t, steps[1..]);
    }
  }

  lemma RoleStep(s: Epoch, step: Step)
    requires Inv(s) && Enabled(s, step) && AllTracked(s)
    ensures AllTracked(Apply(s, step))
  {
    if step.SinkStep? {
      assert WorkerInv(s, step.i);
      ReportCounts(s.drain, step.i, s.sinks[step.i].report, SD.Apply(s.sinks[step.i], step.step).report);
    } else if step.ParserStep? {
      assert WorkerInv(s, step.i);
      ReportCounts(s.drain, step.i, s.parsers[step.i].report, PL.Apply(s.parsers[step.i], step.work).report);
    }
  }

  /**
   * An epoch drains: from any point at which all channels are closed and nobody has left by an error, a
   * run without errors makes no more receives than there is work left; it can always make another one
   * until the tracker is quiesced, and cannot once it is.
   */
  lemma EpochDrains(s: Epoch, t: Epoch, steps: seq<Step>)
    requires Inv(s) && Closed(s) && Clean(s) && AllTracked(s) && Reachable(s, t, steps) && NoneFails(steps)
    ensures Sized(t) && MovesIn(steps) <= Remaining(s)
    ensures MovesIn(steps) == Remaining(s) ==> RD.Quiesced(t.drain.counters)
    ensures RD.Quiesced(t.drain.counters) <==> Remaining(t) == 0
    ensures !RD.Quiesced(t.drain.counters) ==> exists step :: Enabled(t, step) && Moves(step) && !Fails(step)
  {
    RunPays(s, t, steps);
    RolesStay(s, t, steps);
    NothingRemainsIff(t);
    if Remaining(t) > 0 {
      var step := NeverStuck(t);
    }
  }
}

/**
 * An epoch end to end: parsers and sink workers consuming their channels, their one-shot reporters,
 * the channel of drain events and the tracker, all interleaved.
 */
module GracefulDrain {
  import opened Common
  import opened Roles
  import RD = ReloadDrain
  import SD = SinkDrain
  import PL = ParserLoop

  /** Worker `i` runs the loop `sinks[i]` or `parsers[i]`, by its role. */
  datatype Epoch = Epoch(drain: RD.Epoch, sinks: seq<SD.Worker>, parsers: seq<PL.Parser>)

  predicate SinkRole(role: TaskRole) { role.Sink? || role.Infra? }

  /** The loops move by themselves, the tracker receives. */
  datatype Step = SinkStep(i: nat, step: SD.Step) | ParserStep(i: nat, work: PL.Step) | Receive

  predicate Enabled(s: Epoch, step: Step) {
    match step
    case SinkStep(i, t) =>
      && i < |s.sinks| && i < |s.drain.workers| && SinkRole(s.drain.workers[i].role)
      && SD.Enabled(s.sinks[i], t) && s.drain.workers[i].alive
    case ParserStep(i, t) =>
      && i < |s.parsers| && i < |s.drain.workers| && s.drain.workers[i].role.Parser?
      && PL.Enabled(s.parsers[i], t) && s.drain.workers[i].alive
    case Receive => RD.Enabled(s.drain, RD.Receive)
  }

  /** A loop that has just reported sends the event of its reporter. */
  function Reported(d: RD.Epoch, i: nat, before: Option<RD.Outcome>, after: Option<RD.Outcome>): RD.Epoch
    requires i < |d.workers| && d.workers[i].alive
  {
    if before.Some? || after.None? then d
    else RD.Apply(d, if after.value.Drained? then RD.NotifyBy(i) else RD.DropOf(i))
  }

  function Apply(s: Epoch, step: Step): Epoch
    requires Enabled(s, step)
  {
    match step
    case SinkStep(i, t) =>
      var w := SD.Apply(s.sinks[i], t);
      s.(sinks := s.sinks[i := w], drain := Reported(s.drain, i, s.sinks[i].report, w.report))
    case ParserStep(i, t) =>
      var w := PL.Apply(s.parsers[i], t);
      s.(parsers := s.parsers[i := w], drain := Reported(s.drain, i, s.parsers[i].report, w.report))
    case Receive => s.(drain := RD.Apply(s.drain, RD.Receive))
  }

  predicate Sized(s: Epoch) { |s.sinks| == |s.drain.workers| == |s.parsers| }

  predicate Initial(s: Epoch) {
    && RD.Fresh(s.drain) && Sized(s)
    && forall i :: 0 <= i < |s.sinks| ==> SD.Initial(s.sinks[i]) && PL.Initial(s.parsers[i])
  }

  ghost predicate Reachable(start: Epoch, s: Epoch, steps: seq<Step>)
    decreases |steps|
  {
    if steps == [] then s == start
    else Enabled(start, steps[0]) && Reachable(Apply(start, steps[0]), s, steps[1..])
  }

  /** The reporter's event is out exactly if the loop has reported, with the same outcome. */
  predicate Agree(fate: RD.Fate, report: Option<RD.Outcome>) {
    (fate.Unsent? <==> report.None?) && (report.Some? ==> fate.outcome == report.value)
  }

  predicate Linked(w: RD.Worker, sink: SD.Worker, parser: PL.Parser) {
    (SinkRole(w.role) ==> Agree(w.fate, sink.report)) && (w.role.Parser? ==> Agree(w.fate, parser.report))
  }

  ghost predicate WorkerInv(s: Epoch, i: nat)
    requires i < |s.sinks| && Sized(s)
  {
    SD.Inv(s.sinks[i]) && PL.Inv(s.parsers[i]) && Linked(s.drain.workers[i], s.sinks[i], s.parsers[i])
  }

  ghost predicate Inv(s: Epoch) {
    RD.Inv(s.drain) && Sized(s) && forall i :: 0 <= i < |s.sinks| ==> WorkerInv(s, i)
  }

  /** Sending moves one worker's event only. */
  lemma EmitTouchesOne(d: RD.Epoch, i: nat, outcome: RD.Outcome, alive: bool)
    requires i < |d.workers| && RD.WorkerOk(d.number, d.workers[i])
    ensures var t := RD.Emit(d, i, outcome, alive);
            && |t.workers| == |d.workers| && t.workers[i].role == d.workers[i].role
            && (forall j :: 0 <= j < |d.workers| && j != i ==> t.workers[j] == d.workers[j])
            && t.workers[i].fate == if d.workers[i].fate.Unsent? then RD.Sent(outcome) else d.workers[i].fate
  {
  }

  /** Reporting keeps the drain side in order and ties the event to the report. */
  lemma ReportKeeps(d: RD.Epoch, i: nat, before: Option<RD.Outcome>, after: Option<RD.Outcome>)
    requires RD.Inv(d) && i < |d.workers| && d.workers[i].alive && Agree(d.workers[i].fate, before)
    requires before.Some? ==> after == before
    ensures var t := Reported(d, i, before, after);
            && RD.Inv(t) && |t.workers| == |d.workers| && t.workers[i].role == d.workers[i].role
            && Agree(t.workers[i].fate, after)
            && forall j :: 0 <= j < |d.workers| && j != i ==> t.workers[j] == d.workers[j]
  {
    assert RD.WorkerOk(d.number, d.workers[i]);
    if before.None? && after.Some? {
      RD.StepKeepsInv(d, if after.value.Drained? then RD.NotifyBy(i) else RD.DropOf(i));
      EmitTouchesOne(d, i, after.value, after.value.Drained?);
    }
  }

  lemma SinkStepKeepsInv(s: Epoch, i: nat, step: SD.Step)
    requires Inv(s) && Enabled(s, SinkStep(i, step))
    ensures Inv(Apply(s, SinkStep(i, step)))
  {
    var t, w := Apply(s, SinkStep(i, step)), SD.Apply(s.sinks[i], step);
    assert WorkerInv(s, i);
    SD.StepKeepsInv(s.sinks[i], step);
    if s.sinks[i].report.Some? {
      SD.ReportIsFinal(s.sinks[i], w, [step]);
    }
    ReportKeeps(s.drain, i, s.sinks[i].report, w.report);
    forall j | 0 <= j < |t.sinks| ensures WorkerInv(t, j) {
      assert WorkerInv(s, j);
    }
  }

  lemma ParserStepKeepsInv(s: Epoch, i: nat, step: PL.Step)
    requires Inv(s) && Enabled(s, ParserStep(i, step))
    ensures Inv(Apply(s, ParserStep(i, step)))
  {
    var t, w := Apply(s, ParserStep(i, step)), PL.Apply(s.parsers[i], step);
    assert WorkerInv(s, i);
    PL.StepKeepsInv(s.parsers[i], step);
    if s.parsers[i].report.Some? {
      PL.LeftIsFinal(s.parsers[i], step);
    }
    ReportKeeps(s.drain, i, s.parsers[i].report, w.report);
    forall j | 0 <= j < |t.sinks| ensures WorkerInv(t, j) {
      assert WorkerInv(s, j);
    }
  }

  lemma ReceiveKeepsInv(s: Epoch)
    requires Inv(s) && Enabled(s, Receive)
    ensures Inv(Apply(s, Receive))
  {
    var t := Apply(s, Receive);
    RD.StepKeepsInv(s.drain, RD.Receive);
    assert RD.EntryOk(s.drain, 0);
    forall j | 0 <= j < |t.sinks| ensures WorkerInv(t, j) {
      assert WorkerInv(s, j);
    }
  }

  lemma StepKeepsInv(s: Epoch, step: Step)
    requires Inv(s) && Enabled(s, step)
    ensures Inv(Apply(s, step))
  {
    match step
    case SinkStep(i, t) => SinkStepKeepsInv(s, i, t);
    case ParserStep(i, t) => ParserStepKeepsInv(s, i, t);
    case Receive => ReceiveKeepsInv(s);
  }

  lemma {:induction false} ReachableInv(start: Epoch, s: Epoch, steps: seq<Step>)
    requires Inv(start) && Reachable(start, s, steps)
    ensures Inv(s)
    decreases |steps|
  {
    if steps != [] {
      StepKeepsInv(start, steps[0]);
      ReachableInv(Apply(start, steps[0]), s, steps[1..]);
    }
  }

  /** Every package ever sent to the worker was handed on, in order, and no more can come. */
  predicate Emptied(w: SD.Worker) {
    forall c :: 0 <= c < |w.channels| ==>
      w.channels[c].ended && w.channels[c].queue == [] && w.channels[c].handed == w.channels[c].sent
  }

  lemma FinishedIsEmptied(w: SD.Worker)
    requires SD.Inv(w) && w.report == Some(RD.Drained)
    ensures w.mode.Finished? && Emptied(w)
  {
    SD.OpenCountZero(w.channels);
    forall c | 0 <= c < |w.channels|
      ensures w.channels[c].ended && w.channels[c].queue == [] && w.channels[c].handed == w.channels[c].sent
    {
      assert SD.ChannelOk(w.channels[c]);
    }
  }

  /** The worker has handed on all it was sent; a parser may also have been told to stop first. */
  predicate Cleared(s: Epoch, i: nat)
    requires i < |s.sinks| && Sized(s)
  {
    var role := s.drain.workers[i].role;
    && (SinkRole(role) ==> s.sinks[i].mode.Finished? && Emptied(s.sinks[i]))
    && (role.Parser? ==>
          && s.parsers[i].mode.Finished?
          && (s.parsers[i].halted || s.parsers[i].channel.handed == s.parsers[i].channel.sent))
  }

  lemma QuiescedWorker(s: Epoch, i: nat)
    requires Inv(s) && RD.Quiesced(s.drain.counters) && i < |s.sinks| && RD.Tracked(s.drain.workers[i].role)
    ensures Cleared(s, i)
  {
    var role := s.drain.workers[i].role;
    assert WorkerInv(s, i);
    RD.OutstandingZero(s.drain.workers, role);
    assert RD.PendingOf(s.drain.counters, role) == RD.Outstanding(s.drain.workers, role);
    if role.Parser? {
      var ch := s.parsers[i].channel;
      assert ch.queue == [] ==> ch.handed + ch.queue == ch.handed;
    } else {
      FinishedIsEmptied(s.sinks[i]);
    }
  }

  lemma InitialInv(s: Epoch)
    requires Initial(s)
    ensures Inv(s)
  {
    RD.FreshInv(s.drain);
    forall i | 0 <= i < |s.sinks| ensures WorkerInv(s, i) {
      assert SD.Initial(s.sinks[i]) && PL.Initial(s.parsers[i]);
      SD.OpenCountFresh(s.sinks[i].channels);
    }
  }

  /**
   * End to end, over every interleaving: in an epoch that the tracker calls quiesced every sink worker
   * has handed on every package it was ever sent, and every parser every batch unless it was told to
   * stop; one worker that left by an error, or has not left, and the epoch is not quiesced.
   */
  lemma QuiescedMeansEmptied(start: Epoch, s: Epoch, steps: seq<Step>)
    requires Initial(start) && Reachable(start, s, steps)
    ensures Sized(s)
    ensures RD.Quiesced(s.drain.counters) ==>
              forall i :: 0 <= i < |s.sinks| && RD.Tracked(s.drain.workers[i].role) ==> Cleared(s, i)
  {
    InitialInv(start);
    ReachableInv(start, s, steps);
    if RD.Quiesced(s.drain.counters) {
      forall i | 0 <= i < |s.sinks| && RD.Tracked(s.drain.workers[i].role) ensures Cleared(s, i) {
        QuiescedWorker(s, i);
      }
    }
  }
}

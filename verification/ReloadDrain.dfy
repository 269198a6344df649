/**
 * Drain reporting of one processing epoch: every worker holds a one-shot reporter, and a tracker
 * counts the reports down until the epoch is quiesced.
 */
module ReloadDrain {
  import opened Common
  import opened Roles

  datatype Outcome = Drained | Aborted
  datatype DrainEvent = DrainEvent(epoch: nat, role: TaskRole, worker: string, outcome: Outcome)

  // ------------------------------------------------------------ the tracker

  datatype Counters = Counters(epoch: nat, parser: nat, sink: nat, infra: nat)

  predicate Tracked(role: TaskRole) { role.Parser? || role.Sink? || role.Infra? }

  function PendingOf(c: Counters, role: TaskRole): nat
    requires Tracked(role)
  {
    if role.Parser? then c.parser else if role.Sink? then c.sink else c.infra
  }

  predicate Quiesced(c: Counters) { c.parser == 0 && c.sink == 0 && c.infra == 0 }

  /** Which branch of `observe` an event takes. */
  datatype Verdict = Stale | Unsupported | Duplicate | Failed | Counted

  function Judge(c: Counters, e: DrainEvent): Verdict {
    if e.epoch != c.epoch then Stale
    else if !Tracked(e.role) then Unsupported
    else if PendingOf(c, e.role) == 0 then Duplicate
    else if e.outcome.Aborted? then Failed
    else Counted
  }

  function CountDown(c: Counters, e: DrainEvent): Counters {
    if !Judge(c, e).Counted? then c
    else if e.role.Parser? then c.(parser := c.parser - 1)
    else if e.role.Sink? then c.(sink := c.sink - 1)
    else c.(infra := c.infra - 1)
  }

  /** A count that does not go below zero. */
  function LessBy(count: nat, n: nat): nat { if count >= n then count - n else 0 }

  class ReloadDrainTracker {
    const epoch: nat
    var parserPending: nat
    var sinkPending: nat
    var infraPending: nat

    ghost function View(): Counters
      reads this
    {
      Counters(epoch, parserPending, sinkPending, infraPending)
    }

    constructor (epoch: nat, parser: nat, sink: nat, infra: nat)
      ensures View() == Counters(epoch, parser, sink, infra)
    {
      this.epoch := epoch;
      parserPending, sinkPending, infraPending := parser, sink, infra;
    }

    function IsFullyQuiesced(): bool
      reads this
    {
      parserPending == 0 && sinkPending == 0 && infraPending == 0
    }

    /**
     * `ok` is false exactly when a pending worker of this epoch aborted; a drained one is counted down,
     * and nothing else changes anything.
     */
    method Observe(e: DrainEvent) returns (ok: bool)
      modifies this
      ensures View() == CountDown(old(View()), e)
      ensures !ok <==> Judge(old(View()), e).Failed?
      ensures !ok <==> e.epoch == epoch && e.outcome.Aborted? &&
                       ((e.role.Parser? && old(parserPending) > 0) || (e.role.Sink? && old(sinkPending) > 0) ||
                        (e.role.Infra? && old(infraPending) > 0))
      ensures var n := if e.epoch == epoch && e.outcome.Drained? then 1 else 0;
              && parserPending == LessBy(old(parserPending), if e.role.Parser? then n else 0)
              && sinkPending == LessBy(old(sinkPending), if e.role.Sink? then n else 0)
              && infraPending == LessBy(old(infraPending), if e.role.Infra? then n else 0)
    {
      if e.epoch != epoch {
        return true;
      }
      var pending := 0;
      match e.role {
        case Parser => pending := parserPending;
        case Sink => pending := sinkPending;
        case Infra => pending := infraPending;
        case _ => return true;
      }
      if pending == 0 {
        return true;
      }
      if e.outcome.Aborted? {
        return false;
      }
      if e.role.Parser? {
        parserPending := parserPending - 1;
      } else if e.role.Sink? {
        sinkPending := sinkPending - 1;
      } else {
        infraPending := infraPending - 1;
      }
      ok := true;
    }
  }

  // ----------------------------------------------------------- the reporter

  /** The pending event leaves at most once, stamped with the outcome of whoever takes it. */
  function Taken(pending: Option<DrainEvent>, outcome: Outcome): Option<DrainEvent> {
    if pending.None? then None else Some(pending.value.(outcome := outcome))
  }

  class ReloadDrainReporter {
    var pending: Option<DrainEvent>

    constructor (epoch: nat, role: TaskRole, worker: string)
      ensures pending == Some(DrainEvent(epoch, role, worker, Aborted))
    {
      pending := Some(DrainEvent(epoch, role, worker, Aborted));
    }

    method SendPending(outcome: Outcome) returns (sent: Option<DrainEvent>)
      modifies this
      ensures sent == Taken(old(pending), outcome) && pending == None
    {
      sent := None;
      if pending.Some? {
        sent := Some(pending.value.(outcome := outcome));
        pending := None;
      }
    }

    method Notify() returns (sent: Option<DrainEvent>)
      modifies this
      ensures sent == Taken(old(pending), Drained) && pending == None
    {
      sent := SendPending(Drained);
    }

    method Drop() returns (sent: Option<DrainEvent>)
      modifies this
      ensures sent == Taken(old(pending), Aborted) && pending == None
    {
      sent := SendPending(Aborted);
    }
  }

  // --------------------------------------- a bus, its reporters and its tracker

  /** How far the single event of a worker has come. */
  datatype Fate = Unsent | Sent(outcome: Outcome) | Observed(outcome: Outcome)

  datatype Worker = Worker(role: TaskRole, name: string, pending: Option<DrainEvent>, alive: bool, fate: Fate)

  /** `queue` holds the indices of the workers whose events are in the channel, oldest first. */
  datatype Epoch = Epoch(number: nat, workers: seq<Worker>, queue: seq<(nat, DrainEvent)>, counters: Counters)

  datatype Step = NotifyBy(i: nat) | DropOf(i: nat) | Receive

  predicate Enabled(s: Epoch, step: Step) {
    match step
    case NotifyBy(i) => i < |s.workers| && s.workers[i].alive
    case DropOf(i) => i < |s.workers| && s.workers[i].alive
    case Receive => s.queue != [] && s.queue[0].0 < |s.workers|
  }

  function Emit(s: Epoch, i: nat, outcome: Outcome, alive: bool): Epoch
    requires i < |s.workers|
  {
    var w := s.workers[i];
    var sent := Taken(w.pending, outcome);
    if sent.None? then s.(workers := s.workers[i := w.(alive := alive)])
    else s.(workers := s.workers[i := w.(pending := None, alive := alive, fate := Sent(outcome))],
            queue := s.queue + [(i, sent.value)])
  }

  function Apply(s: Epoch, step: Step): Epoch
    requires Enabled(s, step)
  {
    match step
    case NotifyBy(i) => Emit(s, i, Drained, true)
    case DropOf(i) => Emit(s, i, Aborted, false)
    case Receive =>
      var (i, e) := s.queue[0];
      s.(queue := s.queue[1..],
         counters := CountDown(s.counters, e),
         workers := s.workers[i := s.workers[i].(fate := Observed(e.outcome))])
  }

  /** Workers of a role whose event has not been observed as drained. */
  function Outstanding(workers: seq<Worker>, role: TaskRole): nat {
    if workers == [] then 0
    else (if workers[0].role == role && workers[0].fate != Observed(Drained) then 1 else 0)
         + Outstanding(workers[1..], role)
  }

  /** A fresh epoch whose tracker was built with the number of reporters of each role. */
  predicate Fresh(s: Epoch) {
    && s.queue == []
    && (forall i :: 0 <= i < |s.workers| ==>
          var w := s.workers[i];
          w == Worker(w.role, w.name, Some(DrainEvent(s.number, w.role, w.name, Aborted)), true, Unsent))
    && s.counters == Counters(s.number, Outstanding(s.workers, Parser),
                              Outstanding(s.workers, Sink), Outstanding(s.workers, Infra))
  }

  ghost predicate Reachable(start: Epoch, s: Epoch, steps: seq<Step>)
    decreases |steps|
  {
    if steps == [] then s == start
    else Enabled(start, steps[0]) && Reachable(Apply(start, steps[0]), s, steps[1..])
  }

  predicate WorkerOk(number: nat, w: Worker) {
    && (w.pending.Some? <==> w.fate.Unsent?)
    && (w.pending.Some? ==> w.pending.value == DrainEvent(number, w.role, w.name, Aborted))
    && (!w.alive ==> w.pending.None?)
  }

  predicate Queued(queue: seq<(nat, DrainEvent)>, i: nat) {
    exists k :: 0 <= k < |queue| && queue[k].0 == i
  }

  /** Entry `k` of the channel is the stamped event of a worker that has sent it. */
  predicate EntryOk(s: Epoch, k: nat)
    requires k < |s.queue|
  {
    s.queue[k].0 < |s.workers|
    && var w := s.workers[s.queue[k].0];
       w.fate.Sent? && s.queue[k].1 == DrainEvent(s.number, w.role, w.name, w.fate.outcome)
  }

  /** The channel holds, once each, exactly the events that were sent and not yet observed. */
  predicate QueueOk(s: Epoch) {
    && (forall k :: 0 <= k < |s.queue| ==> EntryOk(s, k))
    && (forall k, l :: 0 <= k < l < |s.queue| ==> s.queue[k].0 != s.queue[l].0)
    && (forall i :: 0 <= i < |s.workers| && s.workers[i].fate.Sent? ==> Queued(s.queue, i))
  }

  ghost predicate Inv(s: Epoch) {
    && (forall i :: 0 <= i < |s.workers| ==> WorkerOk(s.number, s.workers[i]))
    && QueueOk(s)
    && s.counters.epoch == s.number
    && (forall role :: Tracked(role) ==> PendingOf(s.counters, role) == Outstanding(s.workers, role))
  }

  lemma {:induction false} OutstandingUpdate(workers: seq<Worker>, i: nat, w: Worker, role: TaskRole)
    requires i < |workers| && w.role == workers[i].role
    ensures Outstanding(workers[i := w], role) - Outstanding(workers, role)
            == (if w.role == role && w.fate != Observed(Drained) then 1 else 0)
               - (if w.role == role && workers[i].fate != Observed(Drained) then 1 else 0)
    ensures workers[i].role == role && workers[i].fate != Observed(Drained) ==> Outstanding(workers, role) > 0
  {
    if i == 0 {
      assert workers[i := w][1..] == workers[1..];
    } else {
      assert workers[i := w][1..] == workers[1..][i - 1 := w];
      OutstandingUpdate(workers[1..], i - 1, w, role);
    }
  }

  lemma {:induction false} OutstandingZero(workers: seq<Worker>, role: TaskRole)
    ensures Outstanding(workers, role) == 0 <==>
            forall i :: 0 <= i < |workers| && workers[i].role == role ==> workers[i].fate == Observed(Drained)
  {
    if workers != [] {
      OutstandingZero(workers[1..], role);
      assert forall i :: 0 < i < |workers| ==> workers[i] == workers[1..][i - 1];
      if Outstanding(workers[1..], role) > 0 {
        var i :| 0 <= i < |workers[1..]| && workers[1..][i].role == role
                 && workers[1..][i].fate != Observed(Drained);
        assert workers[i + 1].role == role && workers[i + 1].fate != Observed(Drained);
      }
    }
  }

  /** Changing worker `i` alone keeps every count if it was and stays outstanding. */
  lemma CountsUnchanged(s: Epoch, t: Epoch, i: nat)
    requires Inv(s) && i < |s.workers| == |t.workers|
    requires t.workers == s.workers[i := t.workers[i]] && t.workers[i].role == s.workers[i].role
    requires s.workers[i].fate != Observed(Drained) <==> t.workers[i].fate != Observed(Drained)
    requires t.counters == s.counters
    ensures forall role :: Tracked(role) ==> PendingOf(t.counters, role) == Outstanding(t.workers, role)
  {
    forall role | Tracked(role) ensures PendingOf(t.counters, role) == Outstanding(t.workers, role) {
      OutstandingUpdate(s.workers, i, t.workers[i], role);
      assert PendingOf(s.counters, role) == Outstanding(s.workers, role);
    }
  }

  lemma EmitKeepsQueue(s: Epoch, i: nat, outcome: Outcome, alive: bool)
    requires QueueOk(s) && i < |s.workers| && WorkerOk(s.number, s.workers[i])
    ensures QueueOk(Emit(s, i, outcome, alive))
  {
    var t := Emit(s, i, outcome, alive);
    forall k | 0 <= k < |t.queue| ensures EntryOk(t, k) {
      if k < |s.queue| {
        assert EntryOk(s, k);
      }
    }
    forall k, l | 0 <= k < l < |t.queue| ensures t.queue[k].0 != t.queue[l].0 {
      assert EntryOk(s, k);
    }
    forall j | 0 <= j < |t.workers| && t.workers[j].fate.Sent? ensures Queued(t.queue, j) {
      if j == i && s.workers[i].pending.Some? {
        assert t.queue[|s.queue|].0 == j;
      } else {
        assert Queued(s.queue, j);
        var k :| 0 <= k < |s.queue| && s.queue[k].0 == j;
        assert t.queue[k].0 == j;
      }
    }
  }

  lemma FreshInv(s: Epoch)
    requires Fresh(s)
    ensures Inv(s)
  {
  }

  lemma EmitKeepsInv(s: Epoch, i: nat, outcome: Outcome, alive: bool)
    requires Inv(s) && i < |s.workers| && s.workers[i].alive
    ensures Inv(Emit(s, i, outcome, alive))
  {
    var t := Emit(s, i, outcome, alive);
    assert WorkerOk(s.number, s.workers[i]);
    EmitKeepsQueue(s, i, outcome, alive);
    CountsUnchanged(s, t, i);
    forall j | 0 <= j < |t.workers| ensures WorkerOk(t.number, t.workers[j]) {
      assert WorkerOk(s.number, s.workers[j]);
    }
  }

  lemma ReceiveKeepsQueue(s: Epoch)
    requires QueueOk(s) && s.queue != []
    ensures Enabled(s, Receive) && QueueOk(Apply(s, Receive))
  {
    assert EntryOk(s, 0);
    var t := Apply(s, Receive);
    forall k | 0 <= k < |t.queue| ensures EntryOk(t, k) {
      assert EntryOk(s, k + 1);
    }
    forall j | 0 <= j < |t.workers| && t.workers[j].fate.Sent? ensures Queued(t.queue, j) {
      assert Queued(s.queue, j);
      var k :| 0 <= k < |s.queue| && s.queue[k].0 == j;
      assert t.queue[k - 1].0 == j;
    }
  }

  /** The oldest event is never stale or a duplicate, and counts its worker down if it was drained. */
  lemma ReceiveCounts(s: Epoch)
    requires Inv(s) && s.queue != []
    ensures Enabled(s, Receive)
    ensures var e := s.queue[0].1;
            Tracked(e.role) ==> Judge(s.counters, e) == if e.outcome.Drained? then Counted else Failed
    ensures var t := Apply(s, Receive);
            forall role :: Tracked(role) ==> PendingOf(t.counters, role) == Outstanding(t.workers, role)
  {
    assert EntryOk(s, 0);
    var (i, e) := s.queue[0];
    var t := Apply(s, Receive);
    if Tracked(e.role) {
      OutstandingUpdate(s.workers, i, t.workers[i], e.role);
      assert PendingOf(s.counters, e.role) == Outstanding(s.workers, e.role);
    }
    forall role | Tracked(role) ensures PendingOf(t.counters, role) == Outstanding(t.workers, role) {
      OutstandingUpdate(s.workers, i, t.workers[i], role);
      assert PendingOf(s.counters, role) == Outstanding(s.workers, role);
    }
  }

  lemma ReceiveKeepsInv(s: Epoch)
    requires Inv(s) && s.queue != []
    ensures Enabled(s, Receive) && Inv(Apply(s, Receive))
  {
    assert EntryOk(s, 0);
    var t := Apply(s, Receive);
    ReceiveKeepsQueue(s);
    ReceiveCounts(s);
    forall j | 0 <= j < |t.workers| ensures WorkerOk(t.number, t.workers[j]) {
      assert WorkerOk(s.number, s.workers[j]);
    }
  }

  lemma StepKeepsInv(s: Epoch, step: Step)
    requires Inv(s) && Enabled(s, step)
    ensures Inv(Apply(s, step))
  {
    match step
    case NotifyBy(i) => EmitKeepsInv(s, i, Drained, true);
    case DropOf(i) => EmitKeepsInv(s, i, Aborted, false);
    case Receive => ReceiveKeepsInv(s);
  }

  lemma {:induction false} ReachableInv(start: Epoch, s: Epoch, steps: seq<Step>)
    requires Inv(start) && Reachable(start, s, steps)
    ensures Inv(s)
    decreases |steps|
  {
    if steps != [] {
      StepKeepsInv(start, steps[0]);
      ReachableInv(Apply(start, steps[0]), s, steps[1..]);
    }
  }

  /** The oldest event in the channel is one that has been sent and not observed. */
  lemma HeadIsSent(s: Epoch)
    requires QueueOk(s) && s.queue != []
    ensures s.queue[0].0 < |s.workers| && s.workers[s.queue[0].0].fate.Sent?
  {
    assert EntryOk(s, 0);
  }

  /** Quiesced exactly when every tracked worker's event was observed as drained. */
  lemma QuiescedWorkers(s: Epoch)
    requires Inv(s)
    ensures Quiesced(s.counters) <==>
            forall i :: 0 <= i < |s.workers| && Tracked(s.workers[i].role) ==>
                          s.workers[i].fate == Observed(Drained)
  {
    OutstandingZero(s.workers, Parser);
    OutstandingZero(s.workers, Sink);
    OutstandingZero(s.workers, Infra);
    assert PendingOf(s.counters, Parser) == Outstanding(s.workers, Parser);
    assert PendingOf(s.counters, Sink) == Outstanding(s.workers, Sink);
    assert PendingOf(s.counters, Infra) == Outstanding(s.workers, Infra);
  }

  /**
   * Sound and complete: whatever the order of notifications, drops and receptions, the tracker is
   * quiesced exactly when the event of every tracked worker was Drained and has been observed.
   */
  lemma QuiescedIff(start: Epoch, s: Epoch, steps: seq<Step>)
    requires Fresh(start) && Reachable(start, s, steps)
    ensures Quiesced(s.counters) <==>
            forall i :: 0 <= i < |s.workers| && Tracked(s.workers[i].role) ==>
                          s.workers[i].fate == Observed(Drained)
  {
    FreshInv(start);
    ReachableInv(start, s, steps);
    QuiescedWorkers(s);
  }

  /** With matching counts `observe` never meets a stale or duplicate event of a tracked worker. */
  lemma NoDuplicates(start: Epoch, s: Epoch, steps: seq<Step>)
    requires Fresh(start) && Reachable(start, s, steps)
    requires s.queue != [] && Tracked(s.queue[0].1.role)
    ensures Judge(s.counters, s.queue[0].1) == if s.queue[0].1.outcome.Drained? then Counted else Failed
  {
    ReachableInv(start, s, steps);
    ReceiveCounts(s);
  }

  /**
   * One-shot: a worker that was dropped has emitted its event, exactly once, and the event is
   * either in the channel (at one position) or was observed.
   */
  lemma ExactlyOneEvent(start: Epoch, s: Epoch, steps: seq<Step>, i: nat)
    requires Fresh(start) && Reachable(start, s, steps)
    requires i < |s.workers| && !s.workers[i].alive
    ensures s.workers[i].fate.Observed? <==> !Queued(s.queue, i)
    ensures s.workers[i].fate.Sent? <==> Queued(s.queue, i)
    ensures forall k, l :: 0 <= k < |s.queue| && 0 <= l < |s.queue| && s.queue[k].0 == i == s.queue[l].0 ==> k == l
  {
    ReachableInv(start, s, steps);
    assert WorkerOk(s.number, s.workers[i]);
    if Queued(s.queue, i) {
      var k :| 0 <= k < |s.queue| && s.queue[k].0 == i;
      assert EntryOk(s, k);
    }
  }

  /** Once sent, an outcome is never revised. */
  lemma OutcomeIsFinal(s: Epoch, step: Step, i: nat)
    requires Inv(s) && Enabled(s, step) && i < |s.workers| && !s.workers[i].fate.Unsent?
    ensures var f := Apply(s, step).workers[i].fate;
            !f.Unsent? && f.outcome == s.workers[i].fate.outcome
  {
    assert WorkerOk(s.number, s.workers[i]);
    if step.Receive? {
      assert EntryOk(s, 0);
    }
  }

  /** One aborted worker keeps the epoch unquiesced in every continuation. */
  lemma {:induction false} AbortIsForever(s: Epoch, t: Epoch, steps: seq<Step>, i: nat)
    requires Inv(s) && Reachable(s, t, steps)
    requires i < |s.workers| && Tracked(s.workers[i].role)
    requires !s.workers[i].fate.Unsent? && s.workers[i].fate.outcome.Aborted?
    ensures !Quiesced(t.counters)
    decreases |steps|
  {
    if steps == [] {
      OutstandingUpdate(s.workers, i, s.workers[i], s.workers[i].role);
      assert PendingOf(s.counters, s.workers[i].role) > 0;
    } else {
      OutcomeIsFinal(s, steps[0], i);
      StepKeepsInv(s, steps[0]);
      AbortIsForever(Apply(s, steps[0]), t, steps[1..], i);
    }
  }
}

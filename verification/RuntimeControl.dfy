/**
 * The runtime command bus: callers ask for a reload, a one-permit gate admits one request at a
 * time, the engine loop handles it and answers, and a status record is kept beside it.
 */
module RuntimeControl {
  import opened Common

  datatype CommandResult = ReloadDone | ReloadDoneWithForceReplace | ReloadFailed(reason: string)

  // ------------------------------------------------------------ the status record

  datatype Status = Status(accepting: bool, current: Option<string>, lastId: Option<string>,
                           lastResult: Option<CommandResult>, startedAt: Option<nat>, finishedAt: Option<nat>)

  function Submitted(s: Status, id: string, now: nat): Status {
    s.(current := Some(id), startedAt := Some(now), finishedAt := None)
  }

  function Running(s: Status, id: string, now: nat): Status {
    if s.current == Some(id) then s else Submitted(s, id, now)
  }

  function Finished(s: Status, id: string, result: CommandResult, now: nat): Status {
    s.(current := None, lastId := Some(id), lastResult := Some(result), finishedAt := Some(now))
  }

  function RolledBack(s: Status, id: string): Status {
    if s.current == Some(id) then s.(current := None, startedAt := None, finishedAt := None) else s
  }

  class RuntimeControlState {
    var accepting: bool
    var current: Option<string>
    var lastId: Option<string>
    var lastResult: Option<CommandResult>
    var startedAt: Option<nat>
    var finishedAt: Option<nat>

    ghost function View(): Status
      reads this
    {
      Status(accepting, current, lastId, lastResult, startedAt, finishedAt)
    }

    constructor ()
      ensures View() == Status(false, None, None, None, None, None)
    {
      accepting, current, lastId, lastResult, startedAt, finishedAt := false, None, None, None, None, None;
    }

    method MarkReloadSubmitted(id: string, now: nat)
      modifies this
      ensures View() == Submitted(old(View()), id, now)
    {
      current := Some(id);
      startedAt := Some(now);
      finishedAt := None;
    }

    method MarkReloadRunning(id: string, now: nat)
      modifies this
      ensures View() == Running(old(View()), id, now)
      ensures current == Some(id) && (old(current) == Some(id) ==> View() == old(View()))
      ensures old(current) != Some(id) ==> startedAt == Some(now) && finishedAt.None?
    {
      if current != Some(id) {
        current := Some(id);
        startedAt := Some(now);
        finishedAt := None;
      }
    }

    method FinishReload(id: string, result: CommandResult, now: nat)
      modifies this
      ensures View() == Finished(old(View()), id, result, now)
    {
      current := None;
      lastId := Some(id);
      lastResult := Some(result);
      finishedAt := Some(now);
    }

    method RollbackReloadSubmission(id: string)
      modifies this
      ensures View() == RolledBack(old(View()), id)
    {
      if current == Some(id) {
        current := None;
        startedAt := None;
        finishedAt := None;
      }
    }
  }

  // ------------------------------------------------------- callers, bus and engine

  datatype Answer = NotReady | Busy | ChannelClosed | Accepted | Cancelled

  /** Progress of one call of `request`; from `Permitted` to `RolledBackStage` it owns the permit. */
  datatype Stage =
    | Start | Ready | Permitted | Marked | SendFailed | RolledBackStage
    | Returned(answer: Answer)

  predicate Owns(stage: Stage) {
    stage.Permitted? || stage.Marked? || stage.SendFailed? || stage.RolledBackStage?
  }

  /** `answers` counts responses sent on the caller's reply channel. */
  datatype Caller = Caller(id: string, stage: Stage, answers: nat, dropped: bool)

  datatype Handling = Nobody | Received(caller: nat) | InProgress(caller: nat) | Done(caller: nat)

  /** `stale`: since `current` was last set, its request was cancelled or dropped with the receiver. */
  datatype Bus = Bus(status: Status, permits: nat, capacity: nat, callers: seq<Caller>,
                     queue: seq<nat>, open: bool, handling: Handling, stale: bool)

  datatype Step =
    | Activate | Deactivate
    | Check(c: nat) | Acquire(c: nat) | Submit(c: nat, now: nat) | Send(c: nat)
    | Rollback(c: nat) | ReturnPermit(c: nat) | Cancel(c: nat)
    | Receive | MarkRunning(now: nat) | Finish(result: CommandResult, now: nat) | Respond
    | DropReceiver

  predicate At(b: Bus, c: nat, stage: Stage) { c < |b.callers| && b.callers[c].stage == stage }

  predicate Enabled(b: Bus, step: Step) {
    match step
    case Activate => true
    case Deactivate => true
    case Check(c) => At(b, c, Start)
    case Acquire(c) => At(b, c, Ready)
    case Submit(c, _) => At(b, c, Permitted)
    case Send(c) => At(b, c, Marked) && (!b.open || |b.queue| < b.capacity)
    case Rollback(c) => At(b, c, SendFailed)
    case ReturnPermit(c) => At(b, c, RolledBackStage)
    case Cancel(c) => At(b, c, Marked)
    case Receive => b.open && b.queue != [] && b.handling.Nobody?
    case MarkRunning(_) => b.handling.Received? && b.handling.caller < |b.callers|
    case Finish(_, _) => b.handling.InProgress? && b.handling.caller < |b.callers|
    case Respond => b.handling.Done? && b.handling.caller < |b.callers|
    case DropReceiver => b.open && b.handling.Nobody? && forall k :: 0 <= k < |b.queue| ==> b.queue[k] < |b.callers|
  }

  function Go(b: Bus, c: nat, stage: Stage): Bus
    requires c < |b.callers|
  {
    b.(callers := b.callers[c := b.callers[c].(stage := stage)])
  }

  function DropAll(callers: seq<Caller>, queue: seq<nat>): seq<Caller>
    requires forall k :: 0 <= k < |queue| ==> queue[k] < |callers|
    decreases queue
  {
    if queue == [] then callers
    else DropAll(callers[queue[0] := callers[queue[0]].(dropped := true)], queue[1..])
  }

  function Apply(b: Bus, step: Step): Bus
    requires Enabled(b, step)
  {
    match step
    case Activate => b.(status := b.status.(accepting := true))
    case Deactivate => b.(status := b.status.(accepting := false))
    case Check(c) => Go(b, c, if b.status.accepting then Ready else Returned(NotReady))
    case Acquire(c) =>
      if b.permits > 0 then Go(b, c, Permitted).(permits := b.permits - 1) else Go(b, c, Returned(Busy))
    case Submit(c, now) => Go(b, c, Marked).(status := Submitted(b.status, b.callers[c].id, now), stale := false)
    case Send(c) =>
      if b.open then Go(b, c, Returned(Accepted)).(queue := b.queue + [c]) else Go(b, c, SendFailed)
    case Rollback(c) =>
      Go(b, c, RolledBackStage).(status := RolledBack(b.status, b.callers[c].id))
    case ReturnPermit(c) => Go(b, c, Returned(ChannelClosed)).(permits := b.permits + 1)
    case Cancel(c) => Go(b, c, Returned(Cancelled)).(permits := b.permits + 1, stale := true)
    case Receive => b.(queue := b.queue[1..], handling := Received(b.queue[0]))
    case MarkRunning(now) =>
      var c := b.handling.caller;
      b.(handling := InProgress(c), status := Running(b.status, b.callers[c].id, now))
    case Finish(result, now) =>
      var c := b.handling.caller;
      b.(handling := Done(c), status := Finished(b.status, b.callers[c].id, result, now), stale := false)
    case Respond =>
      var c := b.handling.caller;
      b.(handling := Nobody, permits := b.permits + 1,
         callers := b.callers[c := b.callers[c].(answers := b.callers[c].answers + 1)])
    case DropReceiver =>
      b.(open := false, queue := [], permits := b.permits + |b.queue|,
         callers := DropAll(b.callers, b.queue), stale := b.stale || b.queue != [])
  }

  predicate Initial(b: Bus) {
    && b.status == Status(false, None, None, None, None, None)
    && b.permits == 1 && b.capacity > 0 && b.queue == [] && b.open && b.handling.Nobody? && !b.stale
    && forall c :: 0 <= c < |b.callers| ==> b.callers[c] == Caller(b.callers[c].id, Start, 0, false)
  }

  ghost predicate Reachable(start: Bus, b: Bus, steps: seq<Step>)
    decreases |steps|
  {
    if steps == [] then b == start
    else Enabled(start, steps[0]) && Reachable(Apply(start, steps[0]), b, steps[1..])
  }

  // ------------------------------------------------------------------ invariant

  function Owners(callers: seq<Caller>): nat {
    if callers == [] then 0 else (if Owns(callers[0].stage) then 1 else 0) + Owners(callers[1..])
  }

  lemma {:induction false} OwnersUpdate(callers: seq<Caller>, c: nat, x: Caller)
    requires c < |callers|
    ensures Owners(callers[c := x]) - Owners(callers)
            == (if Owns(x.stage) then 1 else 0) - (if Owns(callers[c].stage) then 1 else 0)
    ensures Owns(callers[c].stage) ==> Owners(callers) > 0
  {
    if c == 0 {
      assert callers[c := x][1..] == callers[1..];
    } else {
      assert callers[c := x][1..] == callers[1..][c - 1 := x];
      OwnersUpdate(callers[1..], c - 1, x);
    }
  }

  lemma {:induction false} OwnersZero(callers: seq<Caller>)
    ensures Owners(callers) == 0 <==> forall c :: 0 <= c < |callers| ==> !Owns(callers[c].stage)
  {
    if callers != [] {
      OwnersZero(callers[1..]);
      assert forall c :: 0 < c < |callers| ==> callers[c] == callers[1..][c - 1];
      if Owners(callers[1..]) > 0 {
        var c :| 0 <= c < |callers[1..]| && Owns(callers[1..][c].stage);
        assert Owns(callers[c + 1].stage);
      }
    }
  }

  /** Requests that hold the permit: calls under way, queued requests and the one being handled. */
  function InFlight(b: Bus): nat {
    Owners(b.callers) + |b.queue| + if b.handling.Nobody? then 0 else 1
  }

  /** The request whose submission is recorded and not yet finished, if there is one. */
  predicate Live(b: Bus, c: nat) {
    || (c < |b.callers| && (b.callers[c].stage.Marked? || b.callers[c].stage.SendFailed?))
    || c in b.queue
    || b.handling == Received(c)
    || b.handling == InProgress(c)
  }

  predicate Delivered(b: Bus, c: nat) { c in b.queue || (!b.handling.Nobody? && b.handling.caller == c) }

  /** An accepted call is answered once, or still on its way, or was dropped with the receiver. */
  predicate CallerOk(b: Bus, c: nat)
    requires c < |b.callers|
  {
    var x := b.callers[c];
    if x.stage == Returned(Accepted) then
      if Delivered(b, c) then x.answers == 0 && !x.dropped
      else if x.dropped then x.answers == 0
      else x.answers == 1
    else x.answers == 0 && !x.dropped && !Delivered(b, c)
  }

  ghost predicate Inv(b: Bus) {
    && b.permits + InFlight(b) == 1
    && (forall k :: 0 <= k < |b.queue| ==> b.queue[k] < |b.callers|)
    && (!b.handling.Nobody? ==> b.handling.caller < |b.callers|)
    && (forall c :: 0 <= c < |b.callers| ==> CallerOk(b, c))
    && (forall c :: 0 <= c < |b.callers| && Live(b, c) ==>
          b.status.current == Some(b.callers[c].id) && !b.stale)
    && (b.stale ==> b.status.current.Some?)
    && (b.status.current.Some? && !b.stale ==> exists c :: 0 <= c < |b.callers| && Live(b, c))
  }

  lemma InitialInv(b: Bus)
    requires Initial(b)
    ensures Inv(b)
  {
    OwnersZero(b.callers);
  }

  /** With the permit in a caller's hands there is no queued or handled request and no other owner. */
  lemma OwnerIsAlone(b: Bus, c: nat)
    requires Inv(b) && c < |b.callers| && Owns(b.callers[c].stage)
    ensures b.permits == 0 && b.queue == [] && b.handling.Nobody?
    ensures forall d :: 0 <= d < |b.callers| && d != c ==> !Owns(b.callers[d].stage)
  {
    var x := b.callers[c].(stage := Start);
    OwnersUpdate(b.callers, c, x);
    OwnersZero(b.callers[c := x]);
    forall d | 0 <= d < |b.callers| && d != c ensures !Owns(b.callers[d].stage) {
      assert b.callers[c := x][d] == b.callers[d];
    }
  }

  /** With a queued or handled request no call is under way that owns the permit. */
  lemma DeliveredIsAlone(b: Bus)
    requires Inv(b) && (b.queue != [] || !b.handling.Nobody?)
    ensures b.permits == 0 && |b.queue| <= 1 && (b.queue != [] ==> b.handling.Nobody?)
    ensures forall d :: 0 <= d < |b.callers| ==> !Owns(b.callers[d].stage)
  {
    OwnersZero(b.callers);
  }

  /** A caller's own step before it owns the permit changes nothing that others depend on. */
  lemma EarlyStepKeepsInv(b: Bus, c: nat, stage: Stage)
    requires Inv(b) && c < |b.callers| && !Owns(b.callers[c].stage) && !b.callers[c].stage.Returned?
    requires stage == Ready || stage == Returned(NotReady) || stage == Returned(Busy)
    ensures Inv(Go(b, c, stage))
  {
    var t := Go(b, c, stage);
    OwnersUpdate(b.callers, c, t.callers[c]);
    assert CallerOk(b, c);
    forall d | 0 <= d < |t.callers| ensures CallerOk(t, d) {
      assert CallerOk(b, d);
    }
    assert forall d :: 0 <= d < |b.callers| ==> (Live(t, d) <==> Live(b, d));
  }

  lemma AcquireKeepsInv(b: Bus, c: nat)
    requires Inv(b) && Enabled(b, Acquire(c)) && b.permits > 0
    ensures Inv(Apply(b, Acquire(c)))
  {
    var t := Apply(b, Acquire(c));
    OwnersUpdate(b.callers, c, t.callers[c]);
    assert CallerOk(b, c);
    forall d | 0 <= d < |t.callers| ensures CallerOk(t, d) {
      assert CallerOk(b, d);
    }
    assert forall d :: 0 <= d < |b.callers| ==> (Live(t, d) <==> Live(b, d));
  }

  /** The call that owns the permit records and sends its request. */
  lemma SubmitOrSendKeepsInv(b: Bus, step: Step)
    requires Inv(b) && Enabled(b, step) && (step.Submit? || step.Send?)
    ensures Inv(Apply(b, step))
  {
    var c := step.c;
    var t := Apply(b, step);
    OwnerIsAlone(b, c);
    OwnersUpdate(b.callers, c, t.callers[c]);
    assert CallerOk(b, c);
    forall d | 0 <= d < |t.callers| ensures CallerOk(t, d) {
      assert CallerOk(b, d);
    }
    assert Live(t, c);
    if step.Send? {
      assert Live(b, c);
    }
  }

  /** The call that owns the permit gives it up without a delivery. */
  lemma GiveUpKeepsInv(b: Bus, step: Step)
    requires Inv(b) && Enabled(b, step) && (step.Rollback? || step.ReturnPermit? || step.Cancel?)
    ensures Inv(Apply(b, step))
  {
    var c := step.c;
    var t := Apply(b, step);
    OwnerIsAlone(b, c);
    OwnersUpdate(b.callers, c, t.callers[c]);
    assert CallerOk(b, c);
    forall d | 0 <= d < |t.callers| ensures CallerOk(t, d) {
      assert CallerOk(b, d);
    }
    forall d | 0 <= d < |t.callers| ensures !Live(t, d) {
      assert d != c ==> !Owns(b.callers[d].stage);
    }
    if step.ReturnPermit? {
      assert forall d :: 0 <= d < |b.callers| ==> !Live(b, d);
    } else {
      assert Live(b, c);
    }
  }

  lemma EngineStepKeepsInv(b: Bus, step: Step)
    requires Inv(b) && Enabled(b, step)
    requires step.Receive? || step.MarkRunning? || step.Finish?
    ensures Inv(Apply(b, step))
  {
    var t := Apply(b, step);
    DeliveredIsAlone(b);
    var c := if step.Receive? then b.queue[0] else b.handling.caller;
    assert c < |b.callers| && (step.Receive? ==> b.queue == [c]);
    forall d | 0 <= d < |t.callers| ensures CallerOk(t, d) {
      assert CallerOk(b, d);
    }
    assert Live(b, c);
    if !step.Finish? {
      assert Live(t, c);
    }
  }

  lemma RespondKeepsInv(b: Bus)
    requires Inv(b) && Enabled(b, Respond)
    ensures Inv(Apply(b, Respond))
  {
    var t := Apply(b, Respond);
    DeliveredIsAlone(b);
    var c := b.handling.caller;
    OwnersUpdate(b.callers, c, t.callers[c]);
    assert CallerOk(b, c);
    forall d | 0 <= d < |t.callers| ensures CallerOk(t, d) {
      assert CallerOk(b, d);
    }
    assert forall d :: 0 <= d < |b.callers| ==> (Live(t, d) <==> Live(b, d));
  }

  lemma DropReceiverKeepsInv(b: Bus)
    requires Inv(b) && Enabled(b, DropReceiver)
    ensures Inv(Apply(b, DropReceiver))
  {
    var t := Apply(b, DropReceiver);
    if b.queue == [] {
      forall d | 0 <= d < |t.callers| ensures CallerOk(t, d) {
        assert CallerOk(b, d);
      }
      assert forall d :: 0 <= d < |b.callers| ==> (Live(t, d) <==> Live(b, d));
    } else {
      DeliveredIsAlone(b);
      var c := b.queue[0];
      var callers := b.callers[c := b.callers[c].(dropped := true)];
      assert b.queue == [c] && b.queue[1..] == [];
      assert DropAll(b.callers, b.queue) == DropAll(callers, b.queue[1..]) == callers;
      assert t.callers == b.callers[c := b.callers[c].(dropped := true)];
      OwnersUpdate(b.callers, c, t.callers[c]);
      assert CallerOk(b, c) && Live(b, c);
      forall d | 0 <= d < |t.callers| ensures CallerOk(t, d) {
        assert CallerOk(b, d);
      }
    }
  }

  lemma SwitchKeepsInv(b: Bus, accepting: bool)
    requires Inv(b)
    ensures Inv(b.(status := b.status.(accepting := accepting)))
  {
    var t := b.(status := b.status.(accepting := accepting));
    forall d | 0 <= d < |t.callers| ensures CallerOk(t, d) {
      assert CallerOk(b, d);
    }
    assert forall d :: 0 <= d < |b.callers| ==> (Live(t, d) <==> Live(b, d));
  }

  lemma StepKeepsInv(b: Bus, step: Step)
    requires Inv(b) && Enabled(b, step)
    ensures Inv(Apply(b, step))
  {
    match step
    case Activate => SwitchKeepsInv(b, true);
    case Deactivate => SwitchKeepsInv(b, false);
    case Check(c) => EarlyStepKeepsInv(b, c, if b.status.accepting then Ready else Returned(NotReady));
    case Acquire(c) =>
      if b.permits > 0 {
        AcquireKeepsInv(b, c);
      } else {
        EarlyStepKeepsInv(b, c, Returned(Busy));
      }
    case Submit(_, _) => SubmitOrSendKeepsInv(b, step);
    case Send(_) => SubmitOrSendKeepsInv(b, step);
    case Rollback(_) => GiveUpKeepsInv(b, step);
    case ReturnPermit(_) => GiveUpKeepsInv(b, step);
    case Cancel(_) => GiveUpKeepsInv(b, step);
    case Receive => EngineStepKeepsInv(b, step);
    case MarkRunning(_) => EngineStepKeepsInv(b, step);
    case Finish(_, _) => EngineStepKeepsInv(b, step);
    case Respond => RespondKeepsInv(b);
    case DropReceiver => DropReceiverKeepsInv(b);
  }

  lemma {:induction false} ReachableInv(start: Bus, b: Bus, steps: seq<Step>)
    requires Inv(start) && Reachable(start, b, steps)
    ensures Inv(b)
    decreases |steps|
  {
    if steps != [] {
      StepKeepsInv(start, steps[0]);
      ReachableInv(Apply(start, steps[0]), b, steps[1..]);
    }
  }

  // ------------------------------------------------------------------ theorems

  /**
   * One reload in flight, over every interleaving of any number of callers with the engine,
   * including cancelled sends and a dropped receiver: the requests holding the permit and the free
   * permits always add up to one.
   */
  lemma SingleReloadInFlight(start: Bus, b: Bus, steps: seq<Step>)
    requires Initial(start) && Reachable(start, b, steps)
    ensures b.permits + InFlight(b) == 1
    ensures |b.queue| + (if b.handling.Nobody? then 0 else 1) <= 1
    ensures forall c, d :: 0 <= c < |b.callers| && 0 <= d < |b.callers| && Live(b, c) && Live(b, d) ==> c == d
  {
    InitialInv(start);
    ReachableInv(start, b, steps);
    forall c, d | 0 <= c < |b.callers| && 0 <= d < |b.callers| && Live(b, c) && Live(b, d) ensures c == d {
      if Owns(b.callers[c].stage) {
        OwnerIsAlone(b, c);
      } else if Owns(b.callers[d].stage) {
        OwnerIsAlone(b, d);
      } else {
        DeliveredIsAlone(b);
      }
    }
  }

  /**
   * The recorded request was left behind: since the last submission or end of a reload, a call was
   * cancelled while sending, or the receiver was dropped with a request in the queue.
   */
  ghost predicate LeftBehind(b: Bus, steps: seq<Step>, before: bool)
    decreases |steps|
  {
    if steps == [] then before
    else
      && Enabled(b, steps[0])
      && LeftBehind(Apply(b, steps[0]), steps[1..],
                    if steps[0].Submit? || steps[0].Finish? then false
                    else before || steps[0].Cancel? || (steps[0].DropReceiver? && b.queue != []))
  }

  lemma {:induction false} StaleIsLeftBehind(start: Bus, b: Bus, steps: seq<Step>)
    requires Reachable(start, b, steps)
    ensures b.stale <==> LeftBehind(start, steps, start.stale)
    decreases |steps|
  {
    if steps != [] {
      StaleIsLeftBehind(Apply(start, steps[0]), b, steps[1..]);
    }
  }

  /**
   * The status tells the truth exactly as long as no request was left behind: it names a request if and
   * only if a submitted, unfinished request is alive, and then names that one.
   */
  lemma StatusTruthfulIff(start: Bus, b: Bus, steps: seq<Step>)
    requires Initial(start) && Reachable(start, b, steps)
    ensures (b.status.current.Some? <==> exists c :: 0 <= c < |b.callers| && Live(b, c)) <==>
              !LeftBehind(start, steps, false)
    ensures forall c :: 0 <= c < |b.callers| && Live(b, c) ==> b.status.current == Some(b.callers[c].id)
  {
    InitialInv(start);
    ReachableInv(start, b, steps);
    StaleIsLeftBehind(start, b, steps);
  }

  /** `mark_running` on a received request never changes the status. */
  lemma MarkRunningIsIdle(start: Bus, b: Bus, steps: seq<Step>, now: nat)
    requires Initial(start) && Reachable(start, b, steps) && Enabled(b, MarkRunning(now))
    ensures Apply(b, MarkRunning(now)).status == b.status
  {
    InitialInv(start);
    ReachableInv(start, b, steps);
    assert Live(b, b.handling.caller);
  }

  /** Steps that write the record. */
  predicate Writes(step: Step) { step.Submit? || step.Finish? || step.Rollback? }

  predicate NoWrites(steps: seq<Step>) { forall i :: 0 <= i < |steps| ==> !Writes(steps[i]) }
  predicate NoSwitch(steps: seq<Step>) { forall i :: 0 <= i < |steps| ==> !steps[i].Activate? && !steps[i].Deactivate? }

  lemma RecordStep(s: Bus, step: Step)
    requires Inv(s) && Enabled(s, step)
    ensures !Writes(step) ==> Apply(s, step).status == s.status.(accepting := Apply(s, step).status.accepting)
    ensures !step.Activate? && !step.Deactivate? ==> Apply(s, step).status.accepting == s.status.accepting
  {
    if step.MarkRunning? {
      assert Live(s, s.handling.caller);
    }
  }

  lemma NothingWritten(rest: seq<Step>)
    requires rest != []
    ensures NoWrites(rest) ==> !Writes(rest[0]) && NoWrites(rest[1..])
    ensures NoSwitch(rest) ==> !rest[0].Activate? && !rest[0].Deactivate? && NoSwitch(rest[1..])
  {
  }

  lemma {:induction false} RecordStays(s: Bus, b: Bus, rest: seq<Step>)
    requires Inv(s) && Reachable(s, b, rest)
    ensures NoWrites(rest) ==> b.status == s.status.(accepting := b.status.accepting)
    ensures NoSwitch(rest) ==> b.status.accepting == s.status.accepting
    decreases |rest|
  {
    if rest != [] {
      NothingWritten(rest);
      RecordStep(s, rest[0]);
      StepKeepsInv(s, rest[0]);
      RecordStays(Apply(s, rest[0]), b, rest[1..]);
    }
  }

  /**
   * What the record says is what its last write said.  After a submission: this request, begun then and
   * not ended.  After a rolled back one: no request and no times.  After the end of a reload: no request,
   * and the last result and its time are those of the request that was being handled.  Whether commands
   * are accepted follows the last switch.
   */
  lemma RecordFollowsLastWrite(start: Bus, s: Bus, before: seq<Step>, step: Step, b: Bus, rest: seq<Step>)
    requires Initial(start) && Reachable(start, s, before) && Enabled(s, step) && Reachable(Apply(s, step), b, rest)
    ensures NoWrites(rest) ==>
              match step
              case Submit(c, now) =>
                b.status.current == Some(s.callers[c].id) && b.status.startedAt == Some(now) && b.status.finishedAt.None?
                && b.status.lastId == s.status.lastId && b.status.lastResult == s.status.lastResult
              case Rollback(c) =>
                b.status.current.None? && b.status.startedAt.None? && b.status.finishedAt.None?
                && b.status.lastId == s.status.lastId && b.status.lastResult == s.status.lastResult
              case Finish(result, now) =>
                b.status.current.None? && b.status.lastId == Some(s.callers[s.handling.caller].id)
                && b.status.lastResult == Some(result) && b.status.finishedAt == Some(now)
                && b.status.startedAt == s.status.startedAt
              case _ => true
    ensures NoSwitch(rest) && (step.Activate? || step.Deactivate?) ==> (b.status.accepting <==> step.Activate?)
  {
    InitialInv(start);
    ReachableInv(start, s, before);
    StepKeepsInv(s, step);
    RecordStays(Apply(s, step), b, rest);
    if step.Rollback? {
      assert Live(s, step.c);
    }
  }

  /** A call is told that the engine is not ready exactly when it does not accept commands. */
  lemma NotReadyIff(b: Bus, c: nat)
    requires Enabled(b, Check(c))
    ensures Apply(b, Check(c)).callers[c].stage == Returned(NotReady) <==> !b.status.accepting
    ensures b.status.accepting ==> Enabled(Apply(b, Check(c)), Acquire(c))
  {
  }

  /** Every accepted call is answered exactly once, unless still on its way or dropped unanswered. */
  lemma AnsweredOnce(start: Bus, b: Bus, steps: seq<Step>, c: nat)
    requires Initial(start) && Reachable(start, b, steps) && c < |b.callers|
    ensures b.callers[c].answers <= 1
    ensures b.callers[c].answers == 1 <==>
            b.callers[c].stage == Returned(Accepted) && !Delivered(b, c) && !b.callers[c].dropped
    ensures b.open ==> !b.callers[c].dropped
  {
    InitialInv(start);
    ReachableInv(start, b, steps);
    assert CallerOk(b, c);
    OpenDropsNobody(start, b, steps, c);
  }

  lemma {:induction false} OpenDropsNobody(start: Bus, b: Bus, steps: seq<Step>, c: nat)
    requires Reachable(start, b, steps) && c < |b.callers|
    requires |start.callers| > c ==> (start.open ==> !start.callers[c].dropped)
    ensures |start.callers| == |b.callers|
    ensures b.open ==> !b.callers[c].dropped
    decreases |steps|
  {
    if steps != [] {
      var t := Apply(start, steps[0]);
      if steps[0].DropReceiver? {
        DropAllLength(start.callers, start.queue);
      }
      OpenDropsNobody(t, b, steps[1..], c);
    }
  }

  lemma {:induction false} DropAllLength(callers: seq<Caller>, queue: seq<nat>)
    requires forall k :: 0 <= k < |queue| ==> queue[k] < |callers|
    ensures |DropAll(callers, queue)| == |callers|
    decreases queue
  {
    if queue != [] {
      DropAllLength(callers[queue[0] := callers[queue[0]].(dropped := true)], queue[1..]);
    }
  }

  /** A call is refused as busy exactly when another request holds the permit. */
  lemma BusyIff(start: Bus, b: Bus, steps: seq<Step>, c: nat)
    requires Initial(start) && Reachable(start, b, steps) && Enabled(b, Acquire(c))
    ensures Apply(b, Acquire(c)).callers[c].stage == Returned(Busy) <==> InFlight(b) == 1
  {
    InitialInv(start);
    ReachableInv(start, b, steps);
  }

  /** Once a request has been answered, the next caller is admitted. */
  lemma ResponseReopensGate(start: Bus, b: Bus, steps: seq<Step>, c: nat)
    requires Initial(start) && Reachable(start, b, steps) && Enabled(b, Respond) && At(b, c, Ready)
    ensures var t := Apply(b, Respond);
            Enabled(t, Acquire(c)) && At(Apply(t, Acquire(c)), c, Permitted) && t.status.current.None?
  {
    InitialInv(start);
    ReachableInv(start, b, steps);
    DeliveredIsAlone(b);
    if b.status.current.Some? && !b.stale {
      var d :| 0 <= d < |b.callers| && Live(b, d);
      assert !Owns(b.callers[d].stage);
    }
    DoneClearsStatus(start, b, steps);
  }

  /** While a finished request waits for its response nothing is recorded as running. */
  lemma {:induction false} DoneClearsStatus(start: Bus, b: Bus, steps: seq<Step>)
    requires Inv(start) && (start.handling.Done? ==> start.status.current.None?)
    requires Reachable(start, b, steps) && b.handling.Done?
    ensures b.status.current.None?
    decreases |steps|
  {
    if steps != [] {
      var t := Apply(start, steps[0]);
      StepKeepsInv(start, steps[0]);
      if start.handling.Done? {
        DeliveredIsAlone(start);
      }
      DoneClearsStatus(t, b, steps[1..]);
    }
  }

  /**
   * A cancelled call leaves the status saying "reloading": the caller is gone, nothing is queued
   * or handled and the gate is free, yet `current` still names it.
   */
  lemma CancelLeavesStaleStatus(start: Bus, b: Bus, steps: seq<Step>, c: nat)
    requires Initial(start) && Reachable(start, b, steps) && Enabled(b, Cancel(c))
    ensures var t := Apply(b, Cancel(c));
            t.stale && t.permits == 1 && InFlight(t) == 0 && t.status.current == Some(b.callers[c].id)
  {
    InitialInv(start);
    ReachableInv(start, b, steps);
    assert Live(b, c);
    OwnerIsAlone(b, c);
    StepKeepsInv(b, Cancel(c));
  }

  lemma {:induction false} ReachableStep(start: Bus, b: Bus, steps: seq<Step>, step: Step)
    requires Reachable(start, b, steps) && Enabled(b, step)
    ensures Reachable(start, Apply(b, step), steps + [step])
    decreases |steps|
  {
    if steps == [] {
      assert ([] + [step])[1..] == [] && steps + [step] == [step];
      assert Reachable(Apply(b, step), Apply(b, step), []);
    } else {
      assert (steps + [step])[1..] == steps[1..] + [step];
      ReachableStep(Apply(start, steps[0]), b, steps[1..], step);
    }
  }

  /** Such a run exists: activate, check, acquire, submit, cancel. */
  lemma StaleStatusIsReachable(id: string) returns (start: Bus, b: Bus, steps: seq<Step>)
    ensures Initial(start) && Reachable(start, b, steps)
    ensures b.status.current == Some(id) && InFlight(b) == 0
  {
    start := Bus(Status(false, None, None, None, None, None), 1, 1, [Caller(id, Start, 0, false)], [], true, Nobody, false);
    b, steps := start, [];
    ReachableStep(start, b, steps, Activate);
    b, steps := Apply(b, Activate), steps + [Activate];
    ReachableStep(start, b, steps, Check(0));
    b, steps := Apply(b, Check(0)), steps + [Check(0)];
    ReachableStep(start, b, steps, Acquire(0));
    b, steps := Apply(b, Acquire(0)), steps + [Acquire(0)];
    ReachableStep(start, b, steps, Submit(0, 0));
    b, steps := Apply(b, Submit(0, 0)), steps + [Submit(0, 0)];
    ReachableStep(start, b, steps, Cancel(0));
    CancelLeavesStaleStatus(start, b, steps, 0);
    b, steps := Apply(b, Cancel(0)), steps + [Cancel(0)];
  }
}

/**
 * The sink workers' loops: they consume their data channels (one for a sink group, five for the
 * infra sinks) until each has ended, then report that the worker is drained.  Any error on the way
 * leaves the loop early, and dropping the reporter then reports an abort.
 */
module SinkDrain {
  import opened Common
  import opened Roles
  import RD = ReloadDrain

  // -------------------------------------------------------- the drain state

  datatype DrainEvent = Pending | AllClosed | Drained

  datatype Drain = Drain(draining: bool, open: nat)

  function Closed(d: Drain): (Drain, DrainEvent) {
    var t := if d.open > 0 then d.(open := d.open - 1) else d;
    (t, if t.open > 0 then Pending else if t.draining then Drained else AllClosed)
  }

  class DrainState {
    var draining: bool
    var openChannels: nat

    constructor (openChannels: nat)
      ensures View() == Drain(false, openChannels)
    {
      draining := false;
      this.openChannels := openChannels;
    }

    function View(): Drain
      reads this
    {
      Drain(draining, openChannels)
    }

    method StartDraining()
      modifies this
      ensures View() == old(View()).(draining := true)
    {
      draining := true;
    }

    method ChannelClosedIsDrained() returns (r: DrainEvent)
      modifies this
      ensures (View(), r) == Closed(old(View()))
      ensures openChannels == (if old(openChannels) > 0 then old(openChannels) - 1 else 0) && draining == old(draining)
      ensures (r.Pending? <==> openChannels > 0) && (r.Drained? <==> openChannels == 0 && draining)
    {
      if openChannels > 0 {
        openChannels := openChannels - 1;
      }
      if openChannels == 0 {
        r := if draining then Drained else AllClosed;
      } else {
        r := Pending;
      }
    }
  }

  // ------------------------------------------------------------- the worker

  type Package = nat

  /**
   * A data channel.  `shut` is set when the receiver closed it, `ended` once the worker has seen the
   * end of the stream; `sent` and `handed` are the packages ever enqueued and ever passed on to the
   * dispatcher.
   */
  datatype Channel = Channel(queue: seq<Package>, senders: nat, shut: bool, ended: bool,
                             sent: seq<Package>, handed: seq<Package>)

  datatype Mode = Looping | Finished | Broken

  datatype Worker = Worker(channels: seq<Channel>, drain: Drain, mode: Mode, report: Option<RD.Outcome>)

  /** Steps of the worker and of everybody holding a sender. */
  datatype Step =
    | Send(c: nat, package: Package)
    | CloneSender(c: nat)
    | DropSender(c: nat)
    | Receive(c: nat, ok: bool)
    | ReceiveEnd(c: nat)
    | StopCommand
    | FailElsewhere

  /** A receive returns the end of the stream: nothing is queued and nothing can be any more. */
  predicate AtEnd(ch: Channel) { ch.queue == [] && (ch.shut || ch.senders == 0) }

  predicate Enabled(s: Worker, step: Step) {
    match step
    case Send(c, _) => c < |s.channels| && s.channels[c].senders > 0 && !s.channels[c].shut && s.mode.Looping?
    case CloneSender(c) => c < |s.channels| && s.channels[c].senders > 0
    case DropSender(c) => c < |s.channels| && s.channels[c].senders > 0
    case Receive(c, _) => c < |s.channels| && s.mode.Looping? && !s.channels[c].ended && s.channels[c].queue != []
    case ReceiveEnd(c) => c < |s.channels| && s.mode.Looping? && !s.channels[c].ended && AtEnd(s.channels[c])
    case StopCommand => s.mode.Looping? && !s.drain.draining
    case FailElsewhere => s.mode.Looping?
  }

  /** Leaving by an error drops the reporter. */
  function Fail(s: Worker): Worker { s.(mode := Broken, report := Some(RD.Aborted)) }

  function ShutAll(cs: seq<Channel>): (r: seq<Channel>)
    ensures |r| == |cs| && forall i :: 0 <= i < |cs| ==> r[i] == cs[i].(shut := true)
  {
    seq(|cs|, i requires 0 <= i < |cs| => cs[i].(shut := true))
  }

  function Apply(s: Worker, step: Step): Worker
    requires Enabled(s, step)
  {
    match step
    case Send(c, p) =>
      var ch := s.channels[c];
      s.(channels := s.channels[c := ch.(queue := ch.queue + [p], sent := ch.sent + [p])])
    case CloneSender(c) => s.(channels := s.channels[c := s.channels[c].(senders := s.channels[c].senders + 1)])
    case DropSender(c) => s.(channels := s.channels[c := s.channels[c].(senders := s.channels[c].senders - 1)])
    case Receive(c, ok) =>
      var ch := s.channels[c];
      var t := s.(channels := s.channels[c := ch.(queue := ch.queue[1..], handed := ch.handed + [ch.queue[0]])]);
      if ok then t else Fail(t)
    case ReceiveEnd(c) =>
      var (d, r) := Closed(s.drain);
      var t := s.(channels := s.channels[c := s.channels[c].(ended := true)], drain := d);
      if r.Pending? then t else t.(mode := Finished, report := Some(RD.Drained))
    case StopCommand => s.(drain := s.drain.(draining := true), channels := ShutAll(s.channels))
    case FailElsewhere => Fail(s)
  }

  /** The select loop of a worker: one turn per event, its reporter consumed on leaving. */
  class SinkWorker {
    var channels: seq<Channel>
    const drain: DrainState
    const reporter: RD.ReloadDrainReporter
    var mode: Mode
    var report: Option<RD.Outcome>

    function View(): Worker
      reads this, drain
    {
      Worker(channels, drain.View(), mode, report)
    }

    /** The one-shot reporter is armed as long as the loop runs. */
    ghost predicate Valid()
      reads this, reporter
    {
      mode.Looping? ==> reporter.pending.Some? && report.None?
    }

    constructor (channels: seq<Channel>, epoch: nat, role: TaskRole, name: string)
      ensures reporter.pending == Some(RD.DrainEvent(epoch, role, name, RD.Aborted))
      ensures View() == Worker(channels, Drain(false, |channels|), Looping, None) && Valid()
      ensures fresh(drain) && fresh(reporter)
    {
      this.channels := channels;
      drain := new DrainState(|channels|);
      reporter := new RD.ReloadDrainReporter(epoch, role, name);
      mode, report := Looping, None;
    }

    /** Handles what a channel delivered; `done` tells the loop to stop. */
    method HandlePackage(c: nat, package: Option<Package>, dispatchOk: bool) returns (done: bool, ok: bool)
      requires c < |channels|
      modifies this`channels, drain
      ensures package.Some? ==> channels == old(channels)[c := old(channels)[c].(handed := old(channels)[c].handed + [package.value])]
      ensures package.Some? ==> !done && ok == dispatchOk && drain.View() == old(drain.View())
      ensures package.None? ==> ok && channels == old(channels)[c := old(channels)[c].(ended := true)]
      ensures package.None? ==>
                drain.View() == Closed(old(drain.View())).0 && done == !Closed(old(drain.View())).1.Pending?
    {
      if package.Some? {
        channels := channels[c := channels[c].(handed := channels[c].handed + [package.value])];
        done, ok := false, dispatchOk;
      } else {
        channels := channels[c := channels[c].(ended := true)];
        var event := drain.ChannelClosedIsDrained();
        done, ok := !event.Pending?, true;
      }
    }

    /** One turn on a data channel: a package, or the end of the stream. */
    method Turn(c: nat, dispatchOk: bool)
      requires Valid() && (Enabled(View(), Receive(c, dispatchOk)) || Enabled(View(), ReceiveEnd(c)))
      modifies this, drain, reporter
      ensures Valid()
      ensures View() == Apply(old(View()), if old(channels)[c].queue != [] then Receive(c, dispatchOk) else ReceiveEnd(c))
    {
      var package := None;
      if channels[c].queue != [] {
        package := Some(channels[c].queue[0]);
        channels := channels[c := channels[c].(queue := channels[c].queue[1..])];
      }
      var done, ok := HandlePackage(c, package, dispatchOk);
      if done {
        var sent := reporter.Notify();
        mode := Finished;
        report := if sent.Some? then Some(sent.value.outcome) else report;
      } else if !ok {
        Leave();
      }
    }

    method Leave()
      requires reporter.pending.Some?
      modifies this`mode, this`report, reporter
      ensures mode == Broken && report == Some(RD.Aborted)
    {
      var sent := reporter.Drop();
      mode := Broken;
      report := Some(sent.value.outcome);
    }

    /** A stop command, or the end of the command channel. */
    method OnStop()
      requires Valid() && Enabled(View(), StopCommand)
      modifies this`channels, drain
      ensures Valid() && View() == Apply(old(View()), StopCommand)
    {
      drain.StartDraining();
      channels := ShutAll(channels);
    }
  }

  // ------------------------------------------------------------- invariants

  function OpenCount(cs: seq<Channel>): nat {
    if cs == [] then 0 else (if cs[0].ended then 0 else 1) + OpenCount(cs[1..])
  }

  predicate ChannelOk(ch: Channel) { ch.handed + ch.queue == ch.sent && (ch.ended ==> AtEnd(ch)) }

  predicate Inv(s: Worker) {
    && (forall i :: 0 <= i < |s.channels| ==> ChannelOk(s.channels[i]))
    && s.drain.open == OpenCount(s.channels)
    && (s.mode.Looping? ==> s.report.None? && s.drain.open > 0)
    && (s.mode.Finished? ==> s.report == Some(RD.Drained) && s.drain.open == 0)
    && (s.mode.Broken? ==> s.report == Some(RD.Aborted))
    && (s.drain.draining ==> forall i :: 0 <= i < |s.channels| ==> s.channels[i].shut)
  }

  /** Changing one channel moves the count by its own contribution. */
  lemma {:induction false} OpenCountUpdate(cs: seq<Channel>, c: nat, ch: Channel)
    requires c < |cs|
    ensures OpenCount(cs[c := ch]) == OpenCount(cs) + (if ch.ended then 0 else 1) - (if cs[c].ended then 0 else 1)
  {
    if c == 0 {
      assert cs[c := ch][1..] == cs[1..];
    } else {
      assert cs[c := ch][1..] == cs[1..][c - 1 := ch];
      OpenCountUpdate(cs[1..], c - 1, ch);
    }
  }

  lemma {:induction false} OpenCountShut(cs: seq<Channel>)
    ensures OpenCount(ShutAll(cs)) == OpenCount(cs)
  {
    if cs != [] {
      OpenCountShut(cs[1..]);
      assert ShutAll(cs)[1..] == ShutAll(cs[1..]);
    }
  }

  lemma {:induction false} OpenCountZero(cs: seq<Channel>)
    ensures OpenCount(cs) == 0 <==> forall i :: 0 <= i < |cs| ==> cs[i].ended
  {
    if cs != [] {
      OpenCountZero(cs[1..]);
      assert forall i :: 0 < i < |cs| ==> cs[i] == cs[1..][i - 1];
    }
  }

  /** A channel may change as long as it stays in order and neither ends nor reopens. */
  lemma ChannelChangeKeepsInv(s: Worker, c: nat, ch: Channel)
    requires Inv(s) && c < |s.channels|
    requires ChannelOk(ch) && ch.ended == s.channels[c].ended && (s.channels[c].shut ==> ch.shut)
    ensures Inv(s.(channels := s.channels[c := ch]))
  {
    OpenCountUpdate(s.channels, c, ch);
  }

  lemma ReceiveKeepsInv(s: Worker, c: nat, ok: bool)
    requires Inv(s) && Enabled(s, Receive(c, ok))
    ensures Inv(Apply(s, Receive(c, ok)))
  {
    var ch := s.channels[c];
    assert ChannelOk(ch);
    assert ch.handed + [ch.queue[0]] + ch.queue[1..] == ch.sent;
    ChannelChangeKeepsInv(s, c, ch.(queue := ch.queue[1..], handed := ch.handed + [ch.queue[0]]));
  }

  lemma SendKeepsInv(s: Worker, c: nat, p: Package)
    requires Inv(s) && Enabled(s, Send(c, p))
    ensures Inv(Apply(s, Send(c, p)))
  {
    var ch := s.channels[c];
    assert ChannelOk(ch);
    assert ch.handed + (ch.queue + [p]) == ch.sent + [p];
    ChannelChangeKeepsInv(s, c, ch.(queue := ch.queue + [p], sent := ch.sent + [p]));
  }

  lemma EndKeepsInv(s: Worker, c: nat)
    requires Inv(s) && Enabled(s, ReceiveEnd(c))
    ensures Inv(Apply(s, ReceiveEnd(c)))
  {
    assert ChannelOk(s.channels[c]);
    OpenCountUpdate(s.channels, c, s.channels[c].(ended := true));
  }

  lemma StepKeepsInv(s: Worker, step: Step)
    requires Inv(s) && Enabled(s, step)
    ensures Inv(Apply(s, step))
  {
    match step
    case Send(c, p) => SendKeepsInv(s, c, p);
    case CloneSender(c) => ChannelChangeKeepsInv(s, c, s.channels[c].(senders := s.channels[c].senders + 1));
    case DropSender(c) => ChannelChangeKeepsInv(s, c, s.channels[c].(senders := s.channels[c].senders - 1));
    case Receive(c, ok) => ReceiveKeepsInv(s, c, ok);
    case ReceiveEnd(c) => EndKeepsInv(s, c);
    case StopCommand => OpenCountShut(s.channels);
    case FailElsewhere =>
  }

  /** Channels as a new worker finds them; at least one, nothing sent yet. */
  predicate Initial(s: Worker) {
    && s.channels != [] && s.drain == Drain(false, |s.channels|) && s.mode.Looping? && s.report.None?
    && forall i :: 0 <= i < |s.channels| ==> s.channels[i] == Channel([], s.channels[i].senders, false, false, [], [])
  }

  lemma {:induction false} OpenCountFresh(cs: seq<Channel>)
    requires forall i :: 0 <= i < |cs| ==> !cs[i].ended
    ensures OpenCount(cs) == |cs|
  {
    if cs != [] {
      OpenCountFresh(cs[1..]);
    }
  }

  ghost predicate Reachable(start: Worker, s: Worker, steps: seq<Step>)
    decreases |steps|
  {
    if steps == [] then s == start
    else Enabled(start, steps[0]) && Reachable(Apply(start, steps[0]), s, steps[1..])
  }

  lemma {:induction false} ReachableInv(start: Worker, s: Worker, steps: seq<Step>)
    requires Inv(start) && Reachable(start, s, steps)
    ensures Inv(s)
    decreases |steps|
  {
    if steps != [] {
      StepKeepsInv(start, steps[0]);
      ReachableInv(Apply(start, steps[0]), s, steps[1..]);
    }
  }

  lemma AlwaysInv(start: Worker, s: Worker, steps: seq<Step>)
    requires Initial(start) && Reachable(start, s, steps)
    ensures Inv(s)
  {
    OpenCountFresh(start.channels);
    ReachableInv(start, s, steps);
  }

  /**
   * A drained report means consumed: it is made exactly when every channel has ended and no error
   * came first, and then each package ever enqueued has been handed on, in order.
   */
  lemma DrainedMeansConsumed(start: Worker, s: Worker, steps: seq<Step>)
    requires Initial(start) && Reachable(start, s, steps)
    ensures s.drain.open == OpenCount(s.channels)
    ensures s.report == Some(RD.Drained) <==> !s.mode.Broken? && forall i :: 0 <= i < |s.channels| ==> s.channels[i].ended
    ensures s.report == Some(RD.Drained) ==> forall i :: 0 <= i < |s.channels| ==> s.channels[i].handed == s.channels[i].sent
    ensures s.report == Some(RD.Aborted) <==> s.mode.Broken?
  {
    AlwaysInv(start, s, steps);
    OpenCountZero(s.channels);
    if s.mode.Finished? {
      forall i | 0 <= i < |s.channels| ensures s.channels[i].handed == s.channels[i].sent {
        assert ChannelOk(s.channels[i]);
      }
    }
  }

  predicate Errs(step: Step) { step.FailElsewhere? || (step.Receive? && !step.ok) }
  predicate SomeErrs(steps: seq<Step>) { steps != [] && (Errs(steps[0]) || SomeErrs(steps[1..])) }

  lemma {:induction false} AbortOfRun(start: Worker, s: Worker, steps: seq<Step>)
    requires Reachable(start, s, steps)
    ensures s.mode.Broken? <==> start.mode.Broken? || SomeErrs(steps)
    decreases |steps|
  {
    if steps != [] {
      AbortOfRun(Apply(start, steps[0]), s, steps[1..]);
    }
  }

  /** An aborted report is made exactly after an error. */
  lemma AbortedIff(start: Worker, s: Worker, steps: seq<Step>)
    requires Initial(start) && Reachable(start, s, steps)
    ensures s.report == Some(RD.Aborted) <==> SomeErrs(steps)
  {
    AlwaysInv(start, s, steps);
    AbortOfRun(start, s, steps);
  }

  /** Leaving the loop is final: the report never changes and nothing more is taken in. */
  lemma {:induction false} ReportIsFinal(s: Worker, t: Worker, steps: seq<Step>)
    requires !s.mode.Looping? && Reachable(s, t, steps)
    ensures t.mode == s.mode && t.report == s.report && |t.channels| == |s.channels|
    ensures forall i :: 0 <= i < |s.channels| ==> t.channels[i].sent == s.channels[i].sent
    decreases |steps|
  {
    if steps != [] {
      ReportIsFinal(Apply(s, steps[0]), t, steps[1..]);
    }
  }

  // --------------------------------------------------------------- progress

  /** Receives still to do: one per queued package and one per stream that has not ended. */
  function Work(cs: seq<Channel>): nat {
    if cs == [] then 0 else |cs[0].queue| + (if cs[0].ended then 0 else 1) + Work(cs[1..])
  }

  lemma {:induction false} WorkUpdate(cs: seq<Channel>, c: nat, ch: Channel)
    requires c < |cs|
    ensures Work(cs[c := ch])
            == Work(cs) + |ch.queue| + (if ch.ended then 0 else 1) - |cs[c].queue| - (if cs[c].ended then 0 else 1)
  {
    if c == 0 {
      assert cs[c := ch][1..] == cs[1..];
    } else {
      assert cs[c := ch][1..] == cs[1..][c - 1 := ch];
      WorkUpdate(cs[1..], c - 1, ch);
    }
  }

  predicate IsReceive(step: Step) { step.Receive? || step.ReceiveEnd? }

  /** While draining, every receive brings the end nearer and nobody can push it away. */
  lemma DrainingShrinks(s: Worker, step: Step)
    requires Inv(s) && s.drain.draining && Enabled(s, step)
    ensures Apply(s, step).drain.draining
    ensures Work(Apply(s, step).channels) == Work(s.channels) - (if IsReceive(step) then 1 else 0)
  {
    match step
    case CloneSender(c) => WorkUpdate(s.channels, c, s.channels[c].(senders := s.channels[c].senders + 1));
    case DropSender(c) => WorkUpdate(s.channels, c, s.channels[c].(senders := s.channels[c].senders - 1));
    case Receive(c, _) =>
      var ch := s.channels[c];
      WorkUpdate(s.channels, c, ch.(queue := ch.queue[1..], handed := ch.handed + [ch.queue[0]]));
    case ReceiveEnd(c) => WorkUpdate(s.channels, c, s.channels[c].(ended := true));
    case _ =>
  }

  function ReceivesIn(steps: seq<Step>): nat {
    if steps == [] then 0 else (if IsReceive(steps[0]) then 1 else 0) + ReceivesIn(steps[1..])
  }

  /** After a stop command the loop is over within as many receives as there is work left. */
  lemma {:induction false} DrainingTerminates(s: Worker, t: Worker, steps: seq<Step>)
    requires Inv(s) && s.drain.draining && Reachable(s, t, steps)
    ensures ReceivesIn(steps) == Work(s.channels) - Work(t.channels)
    decreases |steps|
  {
    if steps != [] {
      DrainingShrinks(s, steps[0]);
      StepKeepsInv(s, steps[0]);
      DrainingTerminates(Apply(s, steps[0]), t, steps[1..]);
    }
  }

  /** And the draining loop is never stuck: some channel has a package or its end to deliver. */
  lemma DrainingNeverStuck(s: Worker) returns (c: nat)
    requires Inv(s) && s.drain.draining && s.mode.Looping?
    ensures Enabled(s, Receive(c, true)) || Enabled(s, ReceiveEnd(c))
  {
    OpenCountZero(s.channels);
    var i :| 0 <= i < |s.channels| && !s.channels[i].ended;
    c := i;
  }
}

/**
 * A parse worker's loop: it takes batches from its channel until the channel ends, and then reports
 * that it is drained.  A stop command ends the loop at once, with the same report, whatever is still
 * queued.
 */
module ParserLoop {
  import opened Common
  import RD = ReloadDrain
  import SD = SinkDrain

  /** `halted` is set when a stop command ended the loop. */
  datatype Parser = Parser(channel: SD.Channel, mode: SD.Mode, report: Option<RD.Outcome>, halted: bool)

  /** `statOk`: the statistics sent after the loop went out, without which there is no drained report. */
  datatype Step =
    | Send(package: SD.Package)
    | CloneSender
    | DropSender
    | Receive(ok: bool)
    | ReceiveEnd(statOk: bool)
    | Halt(statOk: bool)
    | FailElsewhere

  predicate Enabled(s: Parser, step: Step) {
    match step
    case Send(_) => s.mode.Looping? && s.channel.senders > 0
    case CloneSender => s.channel.senders > 0
    case DropSender => s.channel.senders > 0
    case Receive(_) => s.mode.Looping? && s.channel.queue != []
    case ReceiveEnd(_) => s.mode.Looping? && SD.AtEnd(s.channel)
    case Halt(_) => s.mode.Looping?
    case FailElsewhere => s.mode.Looping?
  }

  function Leave(s: Parser, ok: bool): Parser {
    if ok then s.(mode := SD.Finished, report := Some(RD.Drained)) else s.(mode := SD.Broken, report := Some(RD.Aborted))
  }

  function Apply(s: Parser, step: Step): Parser
    requires Enabled(s, step)
  {
    var ch := s.channel;
    match step
    case Send(p) => s.(channel := ch.(queue := ch.queue + [p], sent := ch.sent + [p]))
    case CloneSender => s.(channel := ch.(senders := ch.senders + 1))
    case DropSender => s.(channel := ch.(senders := ch.senders - 1))
    case Receive(ok) =>
      var t := s.(channel := ch.(queue := ch.queue[1..], handed := ch.handed + [ch.queue[0]]));
      if ok then t else Leave(t, false)
    case ReceiveEnd(statOk) => Leave(s.(channel := ch.(ended := true)), statOk)
    case Halt(statOk) => Leave(s.(halted := true), statOk)
    case FailElsewhere => Leave(s, false)
  }

  predicate Initial(s: Parser) {
    s == Parser(SD.Channel([], s.channel.senders, false, false, [], []), SD.Looping, None, false)
  }

  predicate Inv(s: Parser) {
    && SD.ChannelOk(s.channel)
    && (s.mode.Looping? <==> s.report.None?) && (s.mode.Looping? ==> !s.channel.ended)
    && (s.mode.Finished? <==> s.report == Some(RD.Drained))
    && (s.mode.Finished? && !s.halted ==> s.channel.ended) && (s.halted ==> !s.mode.Looping?)
  }

  lemma StepKeepsInv(s: Parser, step: Step)
    requires Inv(s) && Enabled(s, step)
    ensures Inv(Apply(s, step))
  {
    var ch := s.channel;
    if step.Send? {
      assert ch.handed + (ch.queue + [step.package]) == ch.sent + [step.package];
    } else if step.Receive? {
      assert ch.handed + [ch.queue[0]] + ch.queue[1..] == ch.sent;
    }
  }

  /** Once the loop is left, nothing about it changes any more but its senders. */
  lemma LeftIsFinal(s: Parser, step: Step)
    requires Enabled(s, step) && !s.mode.Looping?
    ensures var t := Apply(s, step);
            && t.mode == s.mode && t.report == s.report && t.halted == s.halted
            && t.channel.queue == s.channel.queue && t.channel.sent == s.channel.sent
            && t.channel.handed == s.channel.handed
  {
  }

  ghost predicate Reachable(start: Parser, s: Parser, steps: seq<Step>)
    decreases |steps|
  {
    if steps == [] then s == start
    else Enabled(start, steps[0]) && Reachable(Apply(start, steps[0]), s, steps[1..])
  }

  /** The stop command is taken while batches are queued. */
  predicate Early(s: Parser, step: Step) { step.Halt? && s.channel.queue != [] }

  /** Some stop command of the run is taken while batches are queued. */
  ghost predicate HaltsEarly(s: Parser, steps: seq<Step>)
    decreases |steps|
  {
    steps != [] && Enabled(s, steps[0]) && (Early(s, steps[0]) || HaltsEarly(Apply(s, steps[0]), steps[1..]))
  }

  /** A parser that was stopped with batches queued keeps them. */
  predicate Cut(s: Parser) { s.halted && s.channel.queue != [] }

  lemma CutStep(s: Parser, step: Step)
    requires Inv(s) && Enabled(s, step)
    ensures Cut(Apply(s, step)) <==> Cut(s) || Early(s, step)
  {
    if !s.mode.Looping? {
      LeftIsFinal(s, step);
    }
  }

  lemma {:induction false} CutRun(start: Parser, s: Parser, steps: seq<Step>)
    requires Inv(start) && Reachable(start, s, steps)
    ensures Inv(s) && (Cut(s) <==> Cut(start) || HaltsEarly(start, steps))
    decreases |steps|
  {
    if steps != [] {
      StepKeepsInv(start, steps[0]);
      CutStep(start, steps[0]);
      CutRun(Apply(start, steps[0]), s, steps[1..]);
    }
  }

  lemma DrainedParser(s: Parser)
    requires Inv(s) && s.report == Some(RD.Drained)
    ensures s.channel.handed == s.channel.sent <==> !Cut(s)
  {
    var ch := s.channel;
    assert |ch.sent| == |ch.handed| + |ch.queue|;
    if ch.queue == [] {
      assert ch.handed + ch.queue == ch.handed;
    }
  }

  /**
   * What a drained report of a parser is worth: it has handed on every batch it was ever sent if and
   * only if no stop command was taken while batches were queued.
   */
  lemma DrainedParserIff(start: Parser, s: Parser, steps: seq<Step>)
    requires Initial(start) && Reachable(start, s, steps) && s.report == Some(RD.Drained)
    ensures s.channel.handed == s.channel.sent <==> !HaltsEarly(start, steps)
  {
    CutRun(start, s, steps);
    DrainedParser(s);
  }

  /** Steps that leave the loop by an error, and the two that leave it in order. */
  predicate Errs(step: Step) {
    step.FailElsewhere? || (step.Receive? && !step.ok) || ((step.ReceiveEnd? || step.Halt?) && !step.statOk)
  }

  predicate Ends(step: Step) { (step.ReceiveEnd? || step.Halt?) && step.statOk }

  predicate SomeErrs(steps: seq<Step>) { steps != [] && (Errs(steps[0]) || SomeErrs(steps[1..])) }
  predicate SomeEnds(steps: seq<Step>) { steps != [] && (Ends(steps[0]) || SomeEnds(steps[1..])) }

  lemma {:induction false} ReportOfRun(start: Parser, s: Parser, steps: seq<Step>)
    requires Inv(start) && Reachable(start, s, steps)
    ensures s.report == Some(RD.Aborted) <==> start.report == Some(RD.Aborted) || SomeErrs(steps)
    ensures s.report == Some(RD.Drained) <==> start.report == Some(RD.Drained) || SomeEnds(steps)
    decreases |steps|
  {
    if steps != [] {
      StepKeepsInv(start, steps[0]);
      ReportOfRun(Apply(start, steps[0]), s, steps[1..]);
    }
  }

  /** The report: aborted exactly after an error, drained exactly after the end of the channel or a stop. */
  lemma ReportIff(start: Parser, s: Parser, steps: seq<Step>)
    requires Initial(start) && Reachable(start, s, steps)
    ensures s.report == Some(RD.Aborted) <==> SomeErrs(steps)
    ensures s.report == Some(RD.Drained) <==> SomeEnds(steps)
    ensures s.mode.Looping? <==> !SomeErrs(steps) && !SomeEnds(steps)
  {
    CutRun(start, s, steps);
    ReportOfRun(start, s, steps);
    if s.report.Some? {
      assert s.report == Some(if s.report.value.Drained? then RD.Drained else RD.Aborted);
    }
  }

  /** A stop command does cost batches: one sent, none handed on, and the report says drained. */
  lemma HaltLosesBatches(package: SD.Package)
    ensures var s0 := Parser(SD.Channel([], 1, false, false, [], []), SD.Looping, None, false);
            var s1 := Apply(s0, Send(package));
            var s2 := Apply(s1, Halt(true));
            && Initial(s0) && Reachable(s0, s2, [Send(package), Halt(true)])
            && s2.report == Some(RD.Drained) && s2.channel.sent == [package] && s2.channel.handed == []
  {
    var s0 := Parser(SD.Channel([], 1, false, false, [], []), SD.Looping, None, false);
    var s1 := Apply(s0, Send(package));
    var s2 := Apply(s1, Halt(true));
    var steps := [Send(package), Halt(true)];
    assert steps[1..] == [Halt(true)] && [Halt(true)][1..] == [];
    assert Reachable(s2, s2, []) && Reachable(s1, s2, [Halt(true)]);
  }
}

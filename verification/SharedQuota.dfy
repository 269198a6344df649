/**
 * The line quota shared by the sample pipelines of a generator: one atomic counter, taken with a
 * compare-and-exchange loop and given back when a unit could not be sent.
 */
module SharedQuota {
  import opened Common

  function Min(a: nat, b: nat): nat { if a < b then a else b }

  class SharedTotal {
    const limit: nat
    var produced: nat

    constructor (limit: nat)
      ensures this.limit == limit && produced == 0
    {
      this.limit := limit;
      produced := 0;
    }

    /**
     * The exchange loop under interference: before attempt `k` other pipelines may have stored
     * `others[k]`.  `seen` is the value the last load returned.
     */
    method Reserve(desired: nat, others: seq<nat>) returns (taken: nat, seen: nat)
      modifies this
      ensures taken <= desired
      ensures taken == 0 <==> desired == 0 || seen >= limit
      ensures taken > 0 ==> taken == Min(desired, limit - seen) && produced == seen + taken <= limit
      ensures taken == 0 ==> produced == old(produced) || produced in others
    {
      taken, seen := 0, produced;
      if desired == 0 {
        return;
      }
      var k := 0;
      while true
        invariant 0 <= k <= |others| && taken == 0
        invariant produced == old(produced) || produced in others
        decreases |others| - k
      {
        var current := produced;
        seen := current;
        if current >= limit {
          return;
        }
        var toTake := Min(desired, limit - current);
        var interfered := k < |others|;
        if interfered {
          produced := others[k];
          k := k + 1;
        }
        if produced == current {
          produced := current + toTake;
          taken := toTake;
          return;
        }
      }
    }

    /** The atomic subtraction wraps around at 64 bits. */
    method Release(amount: nat)
      modifies this
      ensures produced == if amount == 0 then old(produced) else (old(produced) - amount) % U64_RANGE
    {
      if amount == 0 {
        return;
      }
      produced := (produced - amount) % U64_RANGE;
    }
  }

  // ----------------------------------------- any number of pipelines, any interleaving

  /** Where a pipeline stands: the load and the exchange are separate steps. */
  datatype Stage =
    | Idle
    | Loaded(current: nat, logAt: nat)
    | Sending(reserved: nat)
    | Done(ok: bool)

  datatype Pipe = Pipe(stage: Stage, completed: nat)

  /** `log` lists the writers of the counter, `lastEnd` how the latest pipeline to end did so. */
  datatype System = System(limit: nat, unit: nat, produced: nat, pipes: seq<Pipe>,
                           log: seq<nat>, lastEnd: Option<bool>)

  datatype Step = Load(i: nat) | Exchange(i: nat) | SendOk(i: nat, sent: nat) | SendErr(i: nat)

  predicate Enabled(s: System, step: Step) {
    step.i < |s.pipes| &&
    match step
    case Load(i) => s.pipes[i].stage.Idle?
    case Exchange(i) => s.pipes[i].stage.Loaded? && s.pipes[i].stage.current < s.limit
    case SendOk(i, sent) => s.pipes[i].stage.Sending? && sent <= s.pipes[i].stage.reserved
    case SendErr(i) => s.pipes[i].stage.Sending?
  }

  function Move(s: System, i: nat, stage: Stage): System
    requires i < |s.pipes|
  {
    s.(pipes := s.pipes[i := s.pipes[i].(stage := stage)])
  }

  /** Gives units back; the atomic subtraction wraps around at 64 bits. */
  function Give(s: System, i: nat, amount: nat): System {
    if amount == 0 then s
    else s.(produced := (s.produced - amount) % U64_RANGE, log := s.log + [i])
  }

  function Apply(s: System, step: Step): System
    requires Enabled(s, step)
  {
    match step
    case Load(i) =>
      if s.produced >= s.limit then Move(s, i, Done(true)).(lastEnd := Some(true))
      else Move(s, i, Loaded(s.produced, |s.log|))
    case Exchange(i) =>
      var c := s.pipes[i].stage.current;
      if s.produced == c then
        var take := Min(s.unit, s.limit - c);
        Move(s, i, Sending(take)).(produced := c + take, log := s.log + [i])
      else Move(s, i, Idle)
    case SendOk(i, sent) =>
      var p := s.pipes[i];
      Give(s.(pipes := s.pipes[i := Pipe(Idle, p.completed + sent)]), i, p.stage.reserved - sent)
    case SendErr(i) =>
      Give(Move(s, i, Done(false)).(lastEnd := Some(false)), i, s.pipes[i].stage.reserved)
  }

  predicate Initial(s: System) {
    && s.limit < U64_RANGE && s.unit > 0 && s.produced == 0 && s.log == [] && s.lastEnd.None?
    && forall i :: 0 <= i < |s.pipes| ==> s.pipes[i] == Pipe(Idle, 0)
  }

  ghost predicate Reachable(start: System, s: System, steps: seq<Step>)
    decreases |steps|
  {
    if steps == [] then s == start
    else Enabled(start, steps[0]) && Reachable(Apply(start, steps[0]), s, steps[1..])
  }

  function Claim(p: Pipe): nat { p.completed + if p.stage.Sending? then p.stage.reserved else 0 }

  function Claims(pipes: seq<Pipe>): seq<nat> {
    seq(|pipes|, i requires 0 <= i < |pipes| => Claim(pipes[i]))
  }

  function Completed(pipes: seq<Pipe>): seq<nat> {
    seq(|pipes|, i requires 0 <= i < |pipes| => pipes[i].completed)
  }

  predicate AllDone(s: System) { forall i :: 0 <= i < |s.pipes| ==> s.pipes[i].stage.Done? }

  /** What a pipeline in flight may rely on. */
  predicate PipeOk(s: System, i: nat)
    requires i < |s.pipes|
  {
    match s.pipes[i].stage
    case Loaded(current, logAt) =>
      && current < s.limit && logAt <= |s.log|
      && i !in s.log[logAt..]
      && (logAt == |s.log| ==> s.produced == current)
    case Sending(reserved) => 0 < reserved
    case _ => true
  }

  ghost predicate Inv(s: System) {
    && s.unit > 0
    && s.produced == Sum(Claims(s.pipes))
    && s.produced <= s.limit < U64_RANGE
    && (forall i :: 0 <= i < |s.pipes| ==> PipeOk(s, i))
    && (|s.pipes| > 0 && AllDone(s) ==>
          s.lastEnd.Some? && (s.lastEnd.value <==> s.produced == s.limit))
  }

  /** A reservation that goes through is a whole unit, or all that was left. */
  lemma ExchangeTakes(s: System, i: nat)
    requires Enabled(s, Exchange(i)) && s.produced == s.pipes[i].stage.current
    ensures var t := Apply(s, Exchange(i));
            && t.pipes[i].stage.Sending? && t.produced == s.produced + t.pipes[i].stage.reserved
            && (if s.produced + s.unit <= s.limit then t.pipes[i].stage.reserved == s.unit else t.produced == s.limit)
  {
  }

  lemma ClaimsUpdate(pipes: seq<Pipe>, i: nat, p: Pipe)
    requires i < |pipes|
    ensures Sum(Claims(pipes[i := p])) == Sum(Claims(pipes)) - Claim(pipes[i]) + Claim(p)
    ensures Claim(pipes[i]) <= Sum(Claims(pipes))
  {
    assert Claims(pipes[i := p]) == Claims(pipes)[i := Claim(p)];
    SumUpdate(Claims(pipes), i, Claim(p));
  }

  /** A write by `i` makes every other loaded value stale and is not charged to the others. */
  lemma WriteKeepsOthers(s: System, t: System, i: nat)
    requires i < |s.pipes| == |t.pipes| && Inv(s)
    requires t.limit == s.limit && (t.log == s.log + [i] || (t.log == s.log && t.produced == s.produced))
    requires t.pipes == s.pipes[i := t.pipes[i]]
    ensures forall j :: 0 <= j < |t.pipes| && j != i ==> PipeOk(t, j)
  {
    forall j | 0 <= j < |t.pipes| && j != i ensures PipeOk(t, j) {
      assert PipeOk(s, j);
      if s.pipes[j].stage.Loaded? && t.log == s.log + [i] {
        var at := s.pipes[j].stage.logAt;
        assert t.log[at..] == s.log[at..] + [i];
      }
    }
  }

  lemma StepKeepsInv(s: System, step: Step)
    requires Inv(s) && Enabled(s, step)
    ensures Inv(Apply(s, step))
  {
    var i := step.i;
    var t := Apply(s, step);
    assert PipeOk(s, i);
    ClaimsUpdate(s.pipes, i, t.pipes[i]);
    WriteKeepsOthers(s, t, i);
    if step.Load? && t.pipes[i].stage.Loaded? {
      assert t.log[|t.log|..] == [];
    }
    assert PipeOk(t, i);
  }

  lemma {:induction false} ReachableInv(start: System, s: System, steps: seq<Step>)
    requires Inv(start) && Reachable(start, s, steps)
    ensures Inv(s)
    decreases |steps|
  {
    if steps != [] {
      StepKeepsInv(start, steps[0]);
      ReachableInv(Apply(start, steps[0]), s, steps[1..]);
    }
  }

  lemma InitialInv(s: System)
    requires Initial(s)
    ensures Inv(s)
  {
    AllZero(Claims(s.pipes));
    if |s.pipes| > 0 {
      assert s.pipes[0].stage.Idle?;
    }
  }

  /**
   * Safety over every interleaving: the counter is exactly the completed units plus the
   * reservations in flight, it never passes the limit, and giving a reservation back never
   * wraps it around.
   */
  lemma CounterIsExact(start: System, s: System, steps: seq<Step>)
    requires Initial(start) && Reachable(start, s, steps)
    ensures s.produced == Sum(Claims(s.pipes)) <= s.limit
    ensures forall i :: 0 <= i < |s.pipes| && s.pipes[i].stage.Sending? ==>
              0 < s.pipes[i].stage.reserved <= s.produced
  {
    InitialInv(start);
    ReachableInv(start, s, steps);
    forall i | 0 <= i < |s.pipes| && s.pipes[i].stage.Sending?
      ensures 0 < s.pipes[i].stage.reserved <= s.produced
    {
      assert PipeOk(s, i);
      ClaimsUpdate(s.pipes, i, s.pipes[i]);
    }
    LimitFixed(start, s, steps);
  }

  lemma {:induction false} LimitFixed(start: System, s: System, steps: seq<Step>)
    requires Reachable(start, s, steps)
    ensures s.limit == start.limit && |s.pipes| == |start.pipes|
    decreases |steps|
  {
    if steps != [] {
      LimitFixed(Apply(start, steps[0]), s, steps[1..]);
    }
  }

  /** An exchange that fails was beaten: only other pipelines wrote the counter since its load. */
  lemma FailedExchangeWasBeaten(start: System, s: System, steps: seq<Step>, i: nat)
    requires Initial(start) && Reachable(start, s, steps)
    requires Enabled(s, Exchange(i)) && s.produced != s.pipes[i].stage.current
    ensures var at := s.pipes[i].stage.logAt;
            at < |s.log| && i !in s.log[at..]
  {
    InitialInv(start);
    ReachableInv(start, s, steps);
    assert PipeOk(s, i);
  }

  /**
   * Exact production: once every pipeline has ended, the completed units sum to the limit if and
   * only if the pipeline that ended last ended without an error.
   */
  lemma ExactTotal(start: System, s: System, steps: seq<Step>)
    requires Initial(start) && Reachable(start, s, steps)
    requires |s.pipes| > 0 && AllDone(s)
    ensures s.lastEnd.Some?
    ensures Sum(Completed(s.pipes)) == start.limit <==> s.lastEnd.value
  {
    InitialInv(start);
    ReachableInv(start, s, steps);
    LimitFixed(start, s, steps);
    assert Completed(s.pipes) == Claims(s.pipes);
  }

  /** An error in the last pipeline really loses lines: limit 1, one pipeline, one failing send. */
  lemma LastErrorFallsShort()
    ensures exists start: System, s: System, steps: seq<Step> ::
              Initial(start) && Reachable(start, s, steps) && |s.pipes| > 0 && AllDone(s)
              && Sum(Completed(s.pipes)) < start.limit
  {
    var s0 := System(1, 1, 0, [Pipe(Idle, 0)], [], None);
    var s1 := Apply(s0, Load(0));
    var s2 := Apply(s1, Exchange(0));
    var s3 := Apply(s2, SendErr(0));
    assert s3.pipes == [Pipe(Done(false), 0)];
    var steps := [Load(0), Exchange(0), SendErr(0)];
    assert steps[1..] == [Exchange(0), SendErr(0)] && steps[1..][1..] == [SendErr(0)];
    assert Reachable(s3, s3, []);
    assert Reachable(s2, s3, [SendErr(0)]);
    assert Reachable(s1, s3, steps[1..]);
    assert Reachable(s0, s3, steps);
    assert Completed(s3.pipes) == [0] && Sum([0]) == 0 + Sum([]);
  }
}

/** Bounded shutdown of one task group: wait a while for each task, then abort all that are left. */
module GroupShutdown {
  import opened Common

  /** Confirmation time for an aborted task, in milliseconds like every time in this module. */
  const ABORT_CONFIRM_TIMEOUT: nat := 500

  /**
   * A spawned task: when it ends by itself (if ever) and whether its join then reports a panic, and
   * how long it takes to unwind once it is aborted (if it ever yields).
   */
  datatype Task = Task(endsAt: Option<nat>, panics: bool, unwind: Option<nat>)

  predicate FinishedBy(h: Task, t: nat) { h.endsAt.Some? && h.endsAt.value <= t }

  predicate EndsAfterAbort(h: Task, abortAt: nat, t: nat) {
    FinishedBy(h, t) || (h.unwind.Some? && abortAt + h.unwind.value <= t)
  }

  /** Instant at which a task aborted at `abortAt` is gone, or none if it never goes. */
  function GoneAt(h: Task, abortAt: nat): Option<nat> {
    if h.unwind.None? then h.endsAt
    else if h.endsAt.None? then Some(abortAt + h.unwind.value)
    else if h.endsAt.value < abortAt + h.unwind.value then h.endsAt
    else Some(abortAt + h.unwind.value)
  }

  /** A bounded wait of at most `limit` for an event at `at`, started at `t`. */
  function WaitUntil(at: Option<nat>, t: nat, limit: nat): nat {
    if at.None? || at.value > t + limit then t + limit
    else if at.value < t then t
    else at.value
  }

  /** `timedOut` is the position of the task whose wait ran out; everything up to it is aborted. */
  datatype Outcome = Outcome(clock: nat, ok: bool, timedOut: Option<nat>, left: seq<Task>)

  /** Confirms the aborted tasks from the last one to the first. */
  function ConfirmAll(handles: seq<Task>, abortAt: nat, t: nat): nat
    decreases handles
  {
    if handles == [] then t
    else
      var n := |handles| - 1;
      ConfirmAll(handles[..n], abortAt, WaitUntil(GoneAt(handles[n], abortAt), t, ABORT_CONFIRM_TIMEOUT))
  }

  /** Waits for the tasks from the last one to the first, until one of them overstays. */
  function GraceDown(handles: seq<Task>, wait: nat, t: nat): (o: Outcome)
    ensures o.timedOut.Some? ==> o.timedOut.value < |handles|
    decreases handles
  {
    if handles == [] then Outcome(t, true, None, [])
    else
      var n := |handles| - 1;
      var h := handles[n];
      if FinishedBy(h, t) then GraceDown(handles[..n], wait, t)
      else if FinishedBy(h, t + wait) then
        if h.panics then Outcome(h.endsAt.value, false, None, handles[..n])
        else GraceDown(handles[..n], wait, h.endsAt.value)
      else Outcome(ConfirmAll(handles, t + wait, t + wait), true, Some(n), [])
  }

  class TaskGroup {
    var handles: seq<Task>

    constructor (handles: seq<Task>)
      ensures this.handles == handles
    {
      this.handles := handles;
    }

    method IsFinished(t: nat) returns (finished: bool)
      ensures finished <==> forall i :: 0 <= i < |handles| ==> FinishedBy(handles[i], t)
    {
      var i := 0;
      while i < |handles|
        invariant 0 <= i <= |handles|
        invariant forall k :: 0 <= k < i ==> FinishedBy(handles[k], t)
      {
        if !FinishedBy(handles[i], t) {
          return false;
        }
        i := i + 1;
      }
      finished := true;
    }

    /** `clock` runs from the end of the broadcast; `aborted` are the tasks that were told to abort. */
    method WaitGraceDownWithTimeout(wait: nat, start: nat)
      returns (ok: bool, clock: nat, aborted: seq<Task>)
      modifies this
      ensures var o := GraceDown(old(handles), wait, start);
              && ok == o.ok && clock == o.clock && handles == o.left
              && aborted == if o.timedOut.Some? then old(handles)[..o.timedOut.value + 1] else []
    {
      ok, clock, aborted := true, start, [];
      var aborting := false;
      var abortAt := 0;
      while handles != []
        invariant ok
        invariant !aborting ==>
                    && aborted == [] && handles <= old(handles)
                    && GraceDown(old(handles), wait, start) == GraceDown(handles, wait, clock)
        invariant aborting ==>
                    var o := GraceDown(old(handles), wait, start);
                    && o.timedOut.Some? && o.ok && o.left == []
                    && o.timedOut.value < |old(handles)| && aborted == old(handles)[..o.timedOut.value + 1]
                    && o.clock == ConfirmAll(handles, abortAt, clock)
        decreases |handles|
      {
        ghost var before := handles;
        var h := handles[|handles| - 1];
        handles := handles[..|handles| - 1];
        if aborting {
          clock := WaitUntil(GoneAt(h, abortAt), clock, ABORT_CONFIRM_TIMEOUT);
        } else if !FinishedBy(h, clock) {
          if FinishedBy(h, clock + wait) {
            clock := h.endsAt.value;
            if h.panics {
              ok := false;
              return;
            }
          } else {
            clock := clock + wait;
            aborted := handles + [h];
            assert aborted == before;
            aborting := true;
            abortAt := clock;
            clock := WaitUntil(GoneAt(h, abortAt), clock, ABORT_CONFIRM_TIMEOUT);
          }
        }
      }
    }
  }

  // ----------------------------------------------------------------- bounds

  function MaxOf(a: nat, b: nat): nat { if a < b then b else a }
  function MinOf(a: nat, b: nat): nat { if a < b then a else b }

  lemma {:induction false} ConfirmBound(handles: seq<Task>, abortAt: nat, t: nat)
    ensures t <= ConfirmAll(handles, abortAt, t) <= t + |handles| * ABORT_CONFIRM_TIMEOUT
    decreases handles
  {
    if handles != [] {
      var n := |handles| - 1;
      ConfirmBound(handles[..n], abortAt, WaitUntil(GoneAt(handles[n], abortAt), t, ABORT_CONFIRM_TIMEOUT));
    }
  }

  /**
   * Time bound: with n tasks, a wait W per task and a confirmation time C, shutting the group down
   * takes at most n * max(W, C) + min(W, C).
   */
  lemma {:induction false} ShutdownIsBounded(handles: seq<Task>, wait: nat, t: nat)
    ensures var o := GraceDown(handles, wait, t);
            var c := 500;
            t <= o.clock <= t + |handles| * MaxOf(wait, c) + MinOf(wait, c)
    decreases handles
  {
    if handles != [] {
      var n := |handles| - 1;
      var h := handles[n];
      var c := ABORT_CONFIRM_TIMEOUT;
      var m := MaxOf(wait, c);
      assert |handles| * m == n * m + m;
      if FinishedBy(h, t) {
        ShutdownIsBounded(handles[..n], wait, t);
      } else if FinishedBy(h, t + wait) {
        ShutdownIsBounded(handles[..n], wait, h.endsAt.value);
        assert h.endsAt.value <= t + m;
        MulMono(m, 0, n);
      } else {
        ConfirmBound(handles, t + wait, t + wait);
        MulMono(n, c, m);
        assert |handles| * c == n * c + c;
      }
    }
  }

  const HUNG := Task(None, false, None)

  lemma {:induction false} HungConfirm(n: nat, abortAt: nat, t: nat)
    ensures ConfirmAll(seq(n, _ => HUNG), abortAt, t) == t + n * ABORT_CONFIRM_TIMEOUT
    decreases n
  {
    if n > 0 {
      assert seq(n, _ => HUNG)[..n - 1] == seq(n - 1, _ => HUNG);
      HungConfirm(n - 1, abortAt, t + ABORT_CONFIRM_TIMEOUT);
    }
  }

  /** The first task hangs; the others, waited for one by one, each end at the very limit of their wait. */
  function LastMinute(n: nat, wait: nat, t: nat): (handles: seq<Task>)
    requires n > 0
    ensures |handles| == n
  {
    if n == 1 then [HUNG] else LastMinute(n - 1, wait, t + wait) + [Task(Some(t + wait), false, None)]
  }

  lemma {:induction false} LastMinuteTakes(n: nat, wait: nat, t: nat)
    requires n > 0 && wait > 0
    ensures GraceDown(LastMinute(n, wait, t), wait, t).clock == t + n * wait + ABORT_CONFIRM_TIMEOUT
    decreases n
  {
    var handles := LastMinute(n, wait, t);
    if n == 1 {
      assert handles[..0] == [];
      assert ConfirmAll([HUNG], t + wait, t + wait)
             == ConfirmAll([HUNG][..0], t + wait, t + wait + ABORT_CONFIRM_TIMEOUT);
    } else {
      assert handles[..n - 1] == LastMinute(n - 1, wait, t + wait);
      LastMinuteTakes(n - 1, wait, t + wait);
      assert n * wait == (n - 1) * wait + wait;
    }
  }

  /** The bound is reached, for every number of tasks and every wait, so it cannot be lowered. */
  lemma BoundIsTight(n: nat, wait: nat) returns (handles: seq<Task>)
    requires n > 0
    ensures |handles| == n
    ensures GraceDown(handles, wait, 0).clock
            == n * MaxOf(wait, 500) + MinOf(wait, 500)
  {
    if wait <= ABORT_CONFIRM_TIMEOUT {
      handles := seq(n, _ => HUNG);
      HungConfirm(n, wait, wait);
    } else {
      handles := LastMinute(n, wait, 0);
      LastMinuteTakes(n, wait, 0);
    }
  }

  /** The clock when the waiting loop comes to task `k`, provided it gets there. */
  function ReachedAt(handles: seq<Task>, wait: nat, t: nat, k: nat): nat
    requires k < |handles|
    decreases handles
  {
    var n := |handles| - 1;
    var h := handles[n];
    if k == n then t
    else if FinishedBy(h, t) || !FinishedBy(h, t + wait) then ReachedAt(handles[..n], wait, t, k)
    else ReachedAt(handles[..n], wait, h.endsAt.value, k)
  }

  /**
   * Who is aborted: on success nothing is left; the tasks after the one that timed out each ended by
   * themselves before the loop came to it and were not aborted, while it was given its full wait from
   * then on and had not ended; without a time-out every task ended by itself.  A failure comes from a
   * panicking task and leaves the ones before it.
   */
  lemma {:induction false} AbortedExactly(handles: seq<Task>, wait: nat, t: nat)
    ensures var o := GraceDown(handles, wait, t);
            && (o.ok ==> o.left == [])
            && (!o.ok ==> o.timedOut.None? && |o.left| < |handles| && o.left < handles && handles[|o.left|].panics)
            && (o.ok && o.timedOut.None? ==> forall i :: 0 <= i < |handles| ==> FinishedBy(handles[i], o.clock))
            && (o.timedOut.Some? ==>
                  var k := o.timedOut.value;
                  && k < |handles| && TimedOutAt(handles, wait, k, ReachedAt(handles, wait, t, k))
                  && t <= ReachedAt(handles, wait, t, k))
    decreases handles
  {
    if handles != [] {
      var n := |handles| - 1;
      var h := handles[n];
      if FinishedBy(h, t) || (FinishedBy(h, t + wait) && !h.panics) {
        var t' := if FinishedBy(h, t) then t else h.endsAt.value;
        AbortedExactly(handles[..n], wait, t');
        ShutdownIsBounded(handles[..n], wait, t');
        var o := GraceDown(handles, wait, t);
        assert o == GraceDown(handles[..n], wait, t');
        assert forall i :: 0 <= i < n ==> handles[i] == handles[..n][i];
      }
    }
  }

  /** When the loop came to task `k` the later ones had ended, and its wait passed without its ending. */
  predicate TimedOutAt(handles: seq<Task>, wait: nat, k: nat, reached: nat)
    requires k < |handles|
  {
    && !FinishedBy(handles[k], reached) && !FinishedBy(handles[k], reached + wait)
    && forall i :: k < i < |handles| ==> FinishedBy(handles[i], reached)
  }

  /** When the loop comes to task `i` it has ended, or it ends in its wait without a panic. */
  predicate Passes(handles: seq<Task>, wait: nat, t: nat, i: nat)
    requires i < |handles|
  {
    var reached := ReachedAt(handles, wait, t, i);
    FinishedBy(handles[i], reached) || (FinishedBy(handles[i], reached + wait) && !handles[i].panics)
  }

  /** The loop passes all tasks behind `k`. */
  predicate ComesTo(handles: seq<Task>, wait: nat, t: nat, k: int) {
    0 <= k < |handles| && forall i :: k < i < |handles| ==> Passes(handles, wait, t, i)
  }

  /** The loop comes to task `k`, which ends in its wait with a panic. */
  predicate FailsAt(handles: seq<Task>, wait: nat, t: nat, k: int) {
    ComesTo(handles, wait, t, k) && !Passes(handles, wait, t, k) &&
    FinishedBy(handles[k], ReachedAt(handles, wait, t, k) + wait)
  }

  /** The loop comes to task `k`, which does not end in its wait. */
  predicate OverstaysAt(handles: seq<Task>, wait: nat, t: nat, k: int) {
    ComesTo(handles, wait, t, k) && !FinishedBy(handles[k], ReachedAt(handles, wait, t, k) + wait)
  }

  /** The clock after a task that the loop passes. */
  function PassedAt(h: Task, t: nat): nat { if FinishedBy(h, t) || h.endsAt.None? then t else h.endsAt.value }

  lemma PassesFront(handles: seq<Task>, wait: nat, t: nat, i: nat)
    requires i < |handles| - 1 && Passes(handles, wait, t, |handles| - 1)
    ensures var n := |handles| - 1;
            var t' := PassedAt(handles[n], t);
            && ReachedAt(handles, wait, t, i) == ReachedAt(handles[..n], wait, t', i)
            && (Passes(handles, wait, t, i) <==> Passes(handles[..n], wait, t', i))
  {
  }

  lemma ComesToFront(handles: seq<Task>, wait: nat, t: nat, k: nat)
    requires k < |handles| - 1 && Passes(handles, wait, t, |handles| - 1)
    ensures var n := |handles| - 1;
            ComesTo(handles, wait, t, k) <==> ComesTo(handles[..n], wait, PassedAt(handles[n], t), k)
  {
    var n := |handles| - 1;
    var front, t' := handles[..n], PassedAt(handles[n], t);
    if ComesTo(handles, wait, t, k) {
      forall i | k < i < n ensures Passes(front, wait, t', i) {
        PassesFront(handles, wait, t, i);
      }
    }
    if ComesTo(front, wait, t', k) {
      forall i | k < i < |handles| ensures Passes(handles, wait, t, i) {
        if i < n {
          PassesFront(handles, wait, t, i);
          assert Passes(front, wait, t', i);
        }
      }
    }
  }

  /** What the loop has made of the later tasks when it comes to task `k`: only its clock has moved. */
  lemma {:induction false} PassesOn(handles: seq<Task>, wait: nat, t: nat, k: nat)
    requires ComesTo(handles, wait, t, k)
    ensures GraceDown(handles, wait, t) == GraceDown(handles[..k + 1], wait, ReachedAt(handles, wait, t, k))
    decreases handles
  {
    var n := |handles| - 1;
    if k == n {
      assert handles[..n + 1] == handles;
    } else {
      ComesToFront(handles, wait, t, k);
      PassesFront(handles, wait, t, k);
      PassesOn(handles[..n], wait, PassedAt(handles[n], t), k);
      assert handles[..n][..k + 1] == handles[..k + 1];
    }
  }

  /** The task at which the loop leaves off waiting, if there is one. */
  lemma {:induction false} FirstStop(handles: seq<Task>, wait: nat, t: nat) returns (k: nat)
    requires !(forall i :: 0 <= i < |handles| ==> Passes(handles, wait, t, i))
    ensures ComesTo(handles, wait, t, k) && !Passes(handles, wait, t, k)
    decreases handles
  {
    var n := |handles| - 1;
    if Passes(handles, wait, t, n) {
      var i :| 0 <= i < |handles| && !Passes(handles, wait, t, i);
      PassesFront(handles, wait, t, i);
      k := FirstStop(handles[..n], wait, PassedAt(handles[n], t));
      ComesToFront(handles, wait, t, k);
      PassesFront(handles, wait, t, k);
    } else {
      k := n;
    }
  }

  lemma {:induction false} AllPass(handles: seq<Task>, wait: nat, t: nat)
    requires forall i :: 0 <= i < |handles| ==> Passes(handles, wait, t, i)
    ensures var o := GraceDown(handles, wait, t);
            && o.ok && o.timedOut.None? && o.left == []
            && (o.clock == t || exists i :: 0 <= i < |handles| && handles[i].endsAt == Some(o.clock))
    decreases handles
  {
    if handles != [] {
      var n := |handles| - 1;
      var t' := PassedAt(handles[n], t);
      forall i | 0 <= i < n ensures Passes(handles[..n], wait, t', i) {
        PassesFront(handles, wait, t, i);
      }
      assert Passes(handles, wait, t, n);
      AllPass(handles[..n], wait, t');
      var o := GraceDown(handles, wait, t);
      assert o == GraceDown(handles[..n], wait, t');
      if o.clock == t' && t' != t {
        assert handles[n].endsAt == Some(o.clock);
      } else if o.clock != t' {
        var i :| 0 <= i < n && handles[..n][i].endsAt == Some(o.clock);
        assert handles[i].endsAt == Some(o.clock);
      }
    }
  }

  /** At the task where the loop leaves off. */
  lemma StopsAt(handles: seq<Task>, wait: nat, t: nat, k: nat)
    requires ComesTo(handles, wait, t, k) && !Passes(handles, wait, t, k)
    ensures var o := GraceDown(handles, wait, t);
            if FinishedBy(handles[k], ReachedAt(handles, wait, t, k) + wait)
            then !o.ok && o.timedOut.None? && o.left == handles[..k] && Some(o.clock) == handles[k].endsAt
            else o.ok && o.timedOut == Some(k) && o.left == []
  {
    PassesOn(handles, wait, t, k);
    assert handles[..k + 1][k] == handles[k] && handles[..k + 1][..k] == handles[..k];
  }

  /**
   * How waiting ends, and when: in an error exactly if the loop comes to a task that ends in its wait with
   * a panic; in an abort exactly if it comes to one that overstays its wait; otherwise when the last task
   * has ended.
   */
  lemma GraceOutcome(handles: seq<Task>, wait: nat, t: nat)
    ensures var o := GraceDown(handles, wait, t);
            && (!o.ok <==> exists k :: FailsAt(handles, wait, t, k))
            && (o.timedOut.Some? <==> exists k :: OverstaysAt(handles, wait, t, k))
            && (forall k :: FailsAt(handles, wait, t, k) ==> o.left == handles[..k] && Some(o.clock) == handles[k].endsAt)
            && (forall k :: OverstaysAt(handles, wait, t, k) ==> o.timedOut == Some(k))
            && (o.ok && o.timedOut.None? ==>
                  o.clock == t || exists i :: 0 <= i < |handles| && handles[i].endsAt == Some(o.clock))
  {
    forall k | FailsAt(handles, wait, t, k) || OverstaysAt(handles, wait, t, k)
      ensures var o := GraceDown(handles, wait, t);
              if FinishedBy(handles[k], ReachedAt(handles, wait, t, k) + wait)
              then !o.ok && o.timedOut.None? && o.left == handles[..k] && Some(o.clock) == handles[k].endsAt
              else o.ok && o.timedOut == Some(k)
    {
      NotPassed(handles, wait, t, k);
      StopsAt(handles, wait, t, k);
    }
    if forall i :: 0 <= i < |handles| ==> Passes(handles, wait, t, i) {
      AllPass(handles, wait, t);
    } else {
      var k := FirstStop(handles, wait, t);
      StopsAt(handles, wait, t, k);
      assert FailsAt(handles, wait, t, k) || OverstaysAt(handles, wait, t, k);
    }
  }

  lemma NotPassed(handles: seq<Task>, wait: nat, t: nat, k: nat)
    requires FailsAt(handles, wait, t, k) || OverstaysAt(handles, wait, t, k)
    ensures !Passes(handles, wait, t, k)
  {
  }

  /**
   * Unwinds overlap: because all tasks are aborted at once, confirming any number of them that
   * unwind within `u` (at most the confirmation time) ends within `u` of the abort, not n times that.
   */
  lemma {:induction false} UnwindsOverlap(handles: seq<Task>, abortAt: nat, t: nat, u: nat)
    requires abortAt <= t <= abortAt + u && u <= ABORT_CONFIRM_TIMEOUT
    requires forall i :: 0 <= i < |handles| ==> EndsAfterAbort(handles[i], abortAt, abortAt + u)
    ensures ConfirmAll(handles, abortAt, t) <= abortAt + u
    ensures forall i :: 0 <= i < |handles| ==> EndsAfterAbort(handles[i], abortAt, ConfirmAll(handles, abortAt, t))
    decreases handles
  {
    if handles != [] {
      var n := |handles| - 1;
      var t' := WaitUntil(GoneAt(handles[n], abortAt), t, ABORT_CONFIRM_TIMEOUT);
      assert EndsAfterAbort(handles[n], abortAt, t');
      UnwindsOverlap(handles[..n], abortAt, t', u);
      ConfirmBound(handles[..n], abortAt, t');
      forall i | 0 <= i < |handles| ensures EndsAfterAbort(handles[i], abortAt, ConfirmAll(handles, abortAt, t)) {
        if i < n {
          assert handles[i] == handles[..n][i];
        }
      }
    }
  }
}

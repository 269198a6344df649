/**
 * The shared input-side limiter: one deadline for all source workers, each of which spends
 * events from its own lease.  Times are nanoseconds.
 */
module SourceLimiter {
  import opened Common

  const U64_MAX: nat := U64_RANGE - 1

  function Clamp(x: nat, lo: nat, hi: nat): nat
    requires lo <= hi
  {
    if x < lo then lo else if x > hi then hi else x
  }

  /** Time charged for a grant, or none when the rate is zero (no limit). */
  function DurationFor(rate: nat, events: nat): Option<nat> {
    if rate == 0 then None
    else Some(Clamp(NANOS_PER_SEC * events / rate, 1, U64_MAX))
  }

  function Max(a: nat, b: nat): nat { if a < b then b else a }

  /** Lease size derived from the rate when the environment does not override it. */
  function DefaultLeaseEvents(rate: nat): (n: nat)
    ensures 1 <= n <= 4096 && (200 * n <= rate || n == 1) && (rate < 200 * (n + 1) || n == 4096)
  {
    Clamp(rate / 200, 1, 4096)
  }

  datatype Reservation = Reservation(next: nat, release: nat)

  /** What one locked section does to the shared deadline. */
  function Reserve(rate: nat, deadline: nat, events: nat, now: nat): Reservation {
    if events == 0 || rate == 0 then Reservation(deadline, now)
    else
      var release := Max(deadline, now);
      Reservation(release + DurationFor(rate, events).value, release)
  }

  class SourceRateLimiter {
    var ratePerSec: nat
    var leaseEvents: nat
    var nextDeadline: nat

    constructor (rate: nat, now: nat)
      ensures ratePerSec == rate && leaseEvents == DefaultLeaseEvents(rate) && nextDeadline == now
    {
      ratePerSec := rate;
      leaseEvents := DefaultLeaseEvents(rate);
      nextDeadline := now;
    }

    /** Returns the instant at which the caller is released. */
    method WaitForEvents(events: nat, now: nat) returns (release: nat)
      modifies this`nextDeadline
      ensures Reservation(nextDeadline, release) == Reserve(ratePerSec, old(nextDeadline), events, now)
      ensures release == if events > 0 && ratePerSec > 0 && now < old(nextDeadline) then old(nextDeadline) else now
      ensures nextDeadline ==
              if events > 0 && ratePerSec > 0 then release + DurationFor(ratePerSec, events).value else old(nextDeadline)
    {
      if events == 0 {
        return now;
      }
      if ratePerSec == 0 {
        return now;
      }
      var duration := Clamp(NANOS_PER_SEC * events / ratePerSec, 1, U64_MAX);
      var wait := if nextDeadline > now then nextDeadline - now else 0;
      var base := if wait == 0 then now else nextDeadline;
      nextDeadline := base + duration;
      release := now + wait;
    }
  }

  class SourceRateLease {
    const limiter: SourceRateLimiter
    var remainingEvents: nat

    constructor (limiter: SourceRateLimiter)
      ensures this.limiter == limiter && remainingEvents == 0
    {
      this.limiter := limiter;
      remainingEvents := 0;
    }

    /**
     * Spends `events`, asking the shared limiter for at most one grant; the grant covers what the
     * lease could not, and nothing is lost or invented.
     */
    method Consume(events: nat, now: nat) returns (granted: Option<nat>, doneAt: nat)
      modifies this`remainingEvents, limiter`nextDeadline
      ensures granted.None? <==> events <= old(remainingEvents)
      ensures granted.Some? ==> granted.value == Max(limiter.leaseEvents, events - old(remainingEvents))
      ensures remainingEvents + events ==
              old(remainingEvents) + if granted.Some? then granted.value else 0
      ensures granted.None? ==> limiter.nextDeadline == old(limiter.nextDeadline) && doneAt == now
      ensures granted.Some? ==>
                Reservation(limiter.nextDeadline, doneAt)
                == Reserve(limiter.ratePerSec, old(limiter.nextDeadline), granted.value, now)
    {
      granted, doneAt := None, now;
      if events == 0 {
        return;
      }
      var required := events;
      while required > remainingEvents
        invariant granted.None? ==>
                    && required == events && remainingEvents == old(remainingEvents)
                    && limiter.nextDeadline == old(limiter.nextDeadline) && doneAt == now
        invariant granted.Some? ==>
                    && events > old(remainingEvents)
                    && required == events - old(remainingEvents)
                    && remainingEvents == granted.value == Max(limiter.leaseEvents, required)
                    && Reservation(limiter.nextDeadline, doneAt)
                       == Reserve(limiter.ratePerSec, old(limiter.nextDeadline), granted.value, now)
        decreases if granted.None? then 1 else 0
      {
        required := required - remainingEvents;
        var grant := Max(limiter.leaseEvents, required);
        doneAt := limiter.WaitForEvents(grant, doneAt);
        remainingEvents := grant;
        granted := Some(grant);
      }
      remainingEvents := remainingEvents - required;
    }
  }

  // ------------------------------------------- all interleavings of many leases

  /** A grant asked for at some instant waits for its release, then feeds its lease, or is forfeited by a cancelled caller. */
  datatype GrantStatus = Waiting | Usable | Forfeited
  datatype Grant = Grant(events: nat, asked: nat, release: nat, status: GrantStatus)

  /** `need` is what the sleeping caller still requires out of grant number `index`. */
  datatype Sleep = Awake | Asleep(index: nat, need: nat, asked: nat)
  datatype Lease = Lease(remaining: nat, sleep: Sleep, granted: nat, consumed: nat)

  datatype System = System(now: nat, deadline: nat, leases: seq<Lease>, grants: seq<Grant>)

  datatype Step =
    | Tick(to: nat)
    | Begin(lease: nat, events: nat, leaseEvents: nat)
    | Wake(lease: nat)
    | Cancel(lease: nat)

  predicate Enabled(s: System, step: Step) {
    match step
    case Tick(to) => s.now <= to
    case Begin(i, events, leaseEvents) => i < |s.leases| && s.leases[i].sleep.Awake?
    case Wake(i) =>
      i < |s.leases| && s.leases[i].sleep.Asleep?
      && s.leases[i].sleep.index < |s.grants|
      && s.grants[s.leases[i].sleep.index].release <= s.now
    case Cancel(i) =>
      i < |s.leases| && s.leases[i].sleep.Asleep? && s.leases[i].sleep.index < |s.grants|
  }

  /** `consume` in two steps: up to the sleep, and from the wake-up on. */
  function Apply(rate: nat, s: System, step: Step): System
    requires Enabled(s, step)
    requires rate > 0
  {
    match step
    case Tick(to) => s.(now := to)
    case Begin(i, events, leaseEvents) =>
      var l := s.leases[i];
      if events <= l.remaining then
        s.(leases := s.leases[i := l.(remaining := l.remaining - events, consumed := l.consumed + events)])
      else
        var need := events - l.remaining;
        var grant := Max(leaseEvents, need);
        var r := Reserve(rate, s.deadline, grant, s.now);
        s.(deadline := r.next,
           grants := s.grants + [Grant(grant, s.now, r.release, Waiting)],
           leases := s.leases[i := l.(sleep := Asleep(|s.grants|, need, events))])
    case Wake(i) =>
      var l := s.leases[i];
      var k := l.sleep.index;
      var g := s.grants[k].events;
      s.(grants := s.grants[k := s.grants[k].(status := Usable)],
         leases := s.leases[i := Lease(if g < l.sleep.need then 0 else g - l.sleep.need, Awake,
                                       l.granted + g, l.consumed + l.sleep.asked)])
    case Cancel(i) =>
      var l := s.leases[i];
      var k := l.sleep.index;
      s.(grants := s.grants[k := s.grants[k].(status := Forfeited)],
         leases := s.leases[i := l.(sleep := Awake)])
  }

  predicate Initial(s: System) {
    s.grants == [] && forall i :: 0 <= i < |s.leases| ==> s.leases[i] == Lease(0, Awake, 0, 0)
  }

  ghost predicate Reachable(rate: nat, start: System, s: System, steps: seq<Step>)
    requires rate > 0
    decreases |steps|
  {
    if steps == [] then s == start
    else
      Enabled(start, steps[0]) && Reachable(rate, Apply(rate, start, steps[0]), s, steps[1..])
  }

  // ---- sums over the state

  function Held(leases: seq<Lease>): seq<nat> {
    seq(|leases|, i requires 0 <= i < |leases| => leases[i].consumed + leases[i].remaining)
  }

  function TotalConsumed(leases: seq<Lease>): nat {
    Sum(seq(|leases|, i requires 0 <= i < |leases| => leases[i].consumed))
  }

  function UsableEvents(grants: seq<Grant>): seq<nat> {
    seq(|grants|, i requires 0 <= i < |grants| => if grants[i].status.Usable? then grants[i].events else 0)
  }

  function Events(grants: seq<Grant>): seq<nat> {
    seq(|grants|, i requires 0 <= i < |grants| => grants[i].events)
  }

  // ---- the invariant

  /** Releases are at least one charged duration apart, and the deadline follows the last one. */
  predicate Spaced(rate: nat, deadline: nat, grants: seq<Grant>)
    requires rate > 0
  {
    && (forall i :: 0 <= i < |grants| - 1 ==>
          grants[i].release + DurationFor(rate, grants[i].events).value <= grants[i + 1].release)
    && (grants != [] ==>
          deadline == grants[|grants| - 1].release + DurationFor(rate, grants[|grants| - 1].events).value)
  }

  /** A lease has spent or still holds exactly what it was granted. */
  predicate LeaseOk(l: Lease, grants: seq<Grant>) {
    && l.granted == l.consumed + l.remaining
    && (l.sleep.Asleep? ==>
          && l.sleep.index < |grants|
          && grants[l.sleep.index].status.Waiting?
          && l.sleep.need <= grants[l.sleep.index].events
          && l.sleep.asked == l.remaining + l.sleep.need)
  }

  predicate OwnGrants(leases: seq<Lease>) {
    forall i, j :: 0 <= i < j < |leases| && leases[i].sleep.Asleep? && leases[j].sleep.Asleep? ==>
      leases[i].sleep.index != leases[j].sleep.index
  }

  ghost predicate Inv(rate: nat, s: System)
    requires rate > 0
  {
    && Spaced(rate, s.deadline, s.grants)
    && (forall i :: 0 <= i < |s.leases| ==> LeaseOk(s.leases[i], s.grants))
    && OwnGrants(s.leases)
    && (forall k :: 0 <= k < |s.grants| && s.grants[k].status.Usable? ==> s.grants[k].release <= s.now)
    && Sum(Held(s.leases)) == Sum(UsableEvents(s.grants))
  }

  lemma HeldUpdate(leases: seq<Lease>, i: nat, l: Lease)
    requires i < |leases|
    ensures Sum(Held(leases[i := l])) ==
            Sum(Held(leases)) - (leases[i].consumed + leases[i].remaining) + (l.consumed + l.remaining)
    ensures leases[i].consumed + leases[i].remaining <= Sum(Held(leases))
  {
    assert Held(leases[i := l]) == Held(leases)[i := l.consumed + l.remaining];
    SumUpdate(Held(leases), i, l.consumed + l.remaining);
  }

  lemma UsableUpdate(grants: seq<Grant>, k: nat, g: Grant)
    requires k < |grants| && !grants[k].status.Usable? && g.events == grants[k].events
    ensures Sum(UsableEvents(grants[k := g])) ==
            Sum(UsableEvents(grants)) + if g.status.Usable? then g.events else 0
  {
    var v := if g.status.Usable? then g.events else 0;
    assert UsableEvents(grants[k := g]) == UsableEvents(grants)[k := v];
    SumUpdate(UsableEvents(grants), k, v);
  }

  lemma InitialInv(rate: nat, s: System)
    requires rate > 0 && Initial(s)
    ensures Inv(rate, s)
  {
    AllZero(Held(s.leases));
    assert UsableEvents(s.grants) == [];
  }

  /** A new reservation goes behind the last one. */
  lemma ReserveKeepsSpacing(rate: nat, deadline: nat, grants: seq<Grant>, events: nat, now: nat)
    requires rate > 0 && events > 0 && Spaced(rate, deadline, grants)
    ensures var r := Reserve(rate, deadline, events, now);
            Spaced(rate, r.next, grants + [Grant(events, now, r.release, Waiting)])
  {
    var r := Reserve(rate, deadline, events, now);
    var t := grants + [Grant(events, now, r.release, Waiting)];
    forall i | 0 <= i < |t| - 1
      ensures t[i].release + DurationFor(rate, t[i].events).value <= t[i + 1].release
    {
      if i < |grants| - 1 {
        assert grants[i].release + DurationFor(rate, grants[i].events).value <= grants[i + 1].release;
      }
    }
  }

  lemma SpendKeepsInv(rate: nat, s: System, i: nat, events: nat, leaseEvents: nat)
    requires rate > 0 && Inv(rate, s) && Enabled(s, Begin(i, events, leaseEvents))
    requires events <= s.leases[i].remaining
    ensures Inv(rate, Apply(rate, s, Begin(i, events, leaseEvents)))
  {
    var t := Apply(rate, s, Begin(i, events, leaseEvents));
    HeldUpdate(s.leases, i, t.leases[i]);
  }

  /** A grant that is not usable yet adds nothing to spend. */
  lemma WaitingAddsNothing(grants: seq<Grant>, g: Grant)
    requires !g.status.Usable?
    ensures Sum(UsableEvents(grants + [g])) == Sum(UsableEvents(grants))
  {
    assert UsableEvents(grants + [g]) == UsableEvents(grants) + [0];
    SumAppend(UsableEvents(grants), [0]);
    assert Sum([0]) == 0 + Sum([]);
  }

  /** The lease that asked sleeps on the new grant; the others keep theirs. */
  lemma GrantKeepsLeases(leases: seq<Lease>, grants: seq<Grant>, i: nat, l: Lease, g: Grant)
    requires i < |leases| && OwnGrants(leases) && forall j :: 0 <= j < |leases| ==> LeaseOk(leases[j], grants)
    requires LeaseOk(l, grants + [g]) && l.sleep.Asleep? && l.sleep.index == |grants|
    ensures var t := leases[i := l];
            OwnGrants(t) && forall j :: 0 <= j < |t| ==> LeaseOk(t[j], grants + [g])
  {
    var t := leases[i := l];
    forall j | 0 <= j < |t| ensures LeaseOk(t[j], grants + [g]) {
      assert LeaseOk(leases[j], grants);
    }
    forall j, k | 0 <= j < k < |t| && t[j].sleep.Asleep? && t[k].sleep.Asleep? ensures t[j].sleep.index != t[k].sleep.index {
      assert LeaseOk(leases[j], grants) && LeaseOk(leases[k], grants);
    }
  }

  lemma GrantKeepsInv(rate: nat, s: System, i: nat, events: nat, leaseEvents: nat)
    requires rate > 0 && Inv(rate, s) && Enabled(s, Begin(i, events, leaseEvents))
    requires events > s.leases[i].remaining
    ensures Inv(rate, Apply(rate, s, Begin(i, events, leaseEvents)))
  {
    var t := Apply(rate, s, Begin(i, events, leaseEvents));
    var g := t.grants[|s.grants|];
    HeldUpdate(s.leases, i, t.leases[i]);
    ReserveKeepsSpacing(rate, s.deadline, s.grants, g.events, s.now);
    WaitingAddsNothing(s.grants, g);
    assert LeaseOk(s.leases[i], s.grants);
    GrantKeepsLeases(s.leases, s.grants, i, t.leases[i], g);
  }

  lemma WakeKeepsInv(rate: nat, s: System, i: nat)
    requires rate > 0 && Inv(rate, s) && Enabled(s, Wake(i))
    ensures Inv(rate, Apply(rate, s, Wake(i)))
  {
    var t := Apply(rate, s, Wake(i));
    assert LeaseOk(s.leases[i], s.grants);
    HeldUpdate(s.leases, i, t.leases[i]);
    UsableUpdate(s.grants, s.leases[i].sleep.index, t.grants[s.leases[i].sleep.index]);
    SettleKeepsOthers(s, t, i);
  }

  lemma CancelKeepsInv(rate: nat, s: System, i: nat)
    requires rate > 0 && Inv(rate, s) && Enabled(s, Cancel(i))
    ensures Inv(rate, Apply(rate, s, Cancel(i)))
  {
    var t := Apply(rate, s, Cancel(i));
    assert LeaseOk(s.leases[i], s.grants);
    HeldUpdate(s.leases, i, t.leases[i]);
    UsableUpdate(s.grants, s.leases[i].sleep.index, t.grants[s.leases[i].sleep.index]);
    SettleKeepsOthers(s, t, i);
  }

  /** Settling one sleeper's grant leaves the other leases' claims alone. */
  lemma SettleKeepsOthers(s: System, t: System, i: nat)
    requires i < |s.leases| && s.leases[i].sleep.Asleep? && OwnGrants(s.leases)
    requires forall j :: 0 <= j < |s.leases| ==> LeaseOk(s.leases[j], s.grants)
    requires |t.leases| == |s.leases| && t.leases == s.leases[i := t.leases[i]]
    requires t.leases[i].sleep.Awake? && LeaseOk(t.leases[i], t.grants)
    requires var k := s.leases[i].sleep.index;
             k < |s.grants| == |t.grants| && t.grants == s.grants[k := t.grants[k]]
    ensures forall j :: 0 <= j < |t.leases| ==> LeaseOk(t.leases[j], t.grants)
    ensures OwnGrants(t.leases)
  {
    forall j | 0 <= j < |t.leases| ensures LeaseOk(t.leases[j], t.grants) {
      assert LeaseOk(s.leases[j], s.grants);
    }
  }

  lemma StepKeepsInv(rate: nat, s: System, step: Step)
    requires rate > 0 && Inv(rate, s) && Enabled(s, step)
    ensures Inv(rate, Apply(rate, s, step))
  {
    match step
    case Tick(_) =>
    case Begin(i, events, leaseEvents) =>
      if events <= s.leases[i].remaining {
        SpendKeepsInv(rate, s, i, events, leaseEvents);
      } else {
        GrantKeepsInv(rate, s, i, events, leaseEvents);
      }
    case Wake(i) => WakeKeepsInv(rate, s, i);
    case Cancel(i) => CancelKeepsInv(rate, s, i);
  }

  lemma {:induction false} ReachableInv(rate: nat, start: System, s: System, steps: seq<Step>)
    requires rate > 0 && Inv(rate, start) && Reachable(rate, start, s, steps)
    ensures Inv(rate, s)
    decreases |steps|
  {
    if steps != [] {
      StepKeepsInv(rate, start, steps[0]);
      ReachableInv(rate, Apply(rate, start, steps[0]), s, steps[1..]);
    }
  }

  // ---- the rate bound

  /** The charged duration covers its events at the configured rate exactly when it is not capped. */
  lemma DurationCovers(rate: nat, events: nat)
    requires rate > 0
    ensures NANOS_PER_SEC * events < rate * (DurationFor(rate, events).value + 1)
            <==> NANOS_PER_SEC * events / rate <= U64_MAX
  {
    var x := NANOS_PER_SEC * events;
    var q := x / rate;
    var d := DurationFor(rate, events).value;
    assert x == rate * q + x % rate;
    assert rate * (d + 1) == rate * d + rate;
    if q <= d {
      MulMono(rate, q, d);
    } else {
      MulMono(rate, d + 1, q);
    }
  }

  /** The charged duration is the time the events take at the rate, rounded down, within 1 and 2^64 - 1. */
  lemma DurationIs(rate: nat, events: nat)
    requires rate > 0
    ensures var d, x := DurationFor(rate, events).value, NANOS_PER_SEC * events;
            && 1 <= d <= U64_MAX
            && (rate * d <= x || d == 1)
            && (x < rate * (d + 1) || d == U64_MAX)
  {
    var x := NANOS_PER_SEC * events;
    var q := x / rate;
    DivMod(x, rate);
    Distribute(rate, q, 1);
    if q > U64_MAX {
      MulMono(rate, U64_MAX, q);
    }
  }

  /** When the time charged for the grants so far ends; before the first one, the limiter's first deadline. */
  function FreeAt(rate: nat, first: nat, grants: seq<Grant>): nat
    requires rate > 0
  {
    if grants == [] then first
    else
      var g := grants[|grants| - 1];
      g.release + DurationFor(rate, g.events).value
  }

  /** Every grant is released as soon as it is asked for and the ones before it are paid. */
  predicate Prompt(rate: nat, first: nat, grants: seq<Grant>)
    requires rate > 0
  {
    grants == [] ||
    var front, g := grants[..|grants| - 1], grants[|grants| - 1];
    var free := FreeAt(rate, first, front);
    Prompt(rate, first, front) && g.release == if g.asked < free then free else g.asked
  }

  predicate PromptAt(rate: nat, first: nat, s: System)
    requires rate > 0
  {
    Prompt(rate, first, s.grants) && s.deadline == FreeAt(rate, first, s.grants)
  }

  predicate SameTimes(g: Grant, h: Grant) { g.events == h.events && g.asked == h.asked && g.release == h.release }

  /** Only the status of grants changes. */
  lemma {:induction false} StatusIsPrompt(rate: nat, first: nat, grants: seq<Grant>, others: seq<Grant>)
    requires rate > 0 && |grants| == |others|
    requires forall i :: 0 <= i < |grants| ==> SameTimes(grants[i], others[i])
    ensures FreeAt(rate, first, grants) == FreeAt(rate, first, others)
    ensures Prompt(rate, first, grants) ==> Prompt(rate, first, others)
  {
    var n := |grants| - 1;
    if grants != [] {
      assert SameTimes(grants[n], others[n]);
      StatusIsPrompt(rate, first, grants[..n], others[..n]);
    }
  }

  /** One more grant, asked for now. */
  lemma GrantIsPrompt(rate: nat, first: nat, s: System, events: nat)
    requires rate > 0 && PromptAt(rate, first, s) && events > 0
    ensures var r := Reserve(rate, s.deadline, events, s.now);
            var grants := s.grants + [Grant(events, s.now, r.release, Waiting)];
            Prompt(rate, first, grants) && r.next == FreeAt(rate, first, grants)
  {
    var r := Reserve(rate, s.deadline, events, s.now);
    var g := Grant(events, s.now, r.release, Waiting);
    assert (s.grants + [g])[..|s.grants|] == s.grants;
  }

  lemma StepIsPrompt(rate: nat, first: nat, s: System, step: Step)
    requires rate > 0 && Enabled(s, step) && PromptAt(rate, first, s)
    ensures PromptAt(rate, first, Apply(rate, s, step))
  {
    var t := Apply(rate, s, step);
    if step.Begin? && step.events > s.leases[step.lease].remaining {
      GrantIsPrompt(rate, first, s, Max(step.leaseEvents, step.events - s.leases[step.lease].remaining));
    } else {
      StatusIsPrompt(rate, first, s.grants, t.grants);
    }
  }

  lemma {:induction false} RunIsPrompt(rate: nat, first: nat, start: System, s: System, steps: seq<Step>)
    requires rate > 0 && PromptAt(rate, first, start) && Reachable(rate, start, s, steps)
    ensures PromptAt(rate, first, s)
    decreases |steps|
  {
    if steps != [] {
      StepIsPrompt(rate, first, start, steps[0]);
      RunIsPrompt(rate, first, Apply(rate, start, steps[0]), s, steps[1..]);
    }
  }

  lemma {:induction false} PromptEach(rate: nat, first: nat, grants: seq<Grant>, i: nat)
    requires rate > 0 && Prompt(rate, first, grants) && i < |grants|
    ensures var free := FreeAt(rate, first, grants[..i]);
            grants[i].release == if grants[i].asked < free then free else grants[i].asked
  {
    var n := |grants| - 1;
    if i < n {
      PromptEach(rate, first, grants[..n], i);
      assert grants[..n][..i] == grants[..i];
    }
  }

  /**
   * Nobody is held back for longer than the rate asks: over all leases and interleavings, a grant is
   * released at the instant it was asked for, or exactly when the time charged for the previous grant
   * ends, and the latter only if that is later.
   */
  lemma ReleasedPromptly(rate: nat, start: System, s: System, steps: seq<Step>, i: nat)
    requires rate > 0 && Initial(start) && Reachable(rate, start, s, steps) && i < |s.grants|
    ensures var g := s.grants[i];
            var free := if i == 0 then start.deadline
                        else s.grants[i - 1].release + DurationFor(rate, s.grants[i - 1].events).value;
            (g.asked >= free ==> g.release == g.asked) && (g.asked < free ==> g.release == free)
  {
    RunIsPrompt(rate, start.deadline, start, s, steps);
    PromptEach(rate, start.deadline, s.grants, i);
  }

  /** Grants released by `now`; they are a prefix because releases increase. */
  function Released(grants: seq<Grant>, now: nat): (m: nat)
    ensures m <= |grants|
  {
    if grants == [] || grants[0].release > now then 0 else 1 + Released(grants[1..], now)
  }

  lemma {:induction false} ReleasesIncrease(rate: nat, deadline: nat, grants: seq<Grant>, i: nat, j: nat)
    requires rate > 0 && Spaced(rate, deadline, grants) && i <= j < |grants|
    ensures grants[i].release <= grants[j].release
    decreases j
  {
    if i < j {
      ReleasesIncrease(rate, deadline, grants, i, j - 1);
      assert grants[j - 1].release + DurationFor(rate, grants[j - 1].events).value <= grants[j - 1 + 1].release;
    }
  }

  /** `Released` counts exactly the grants whose release time has come. */
  lemma {:induction false} ReleasedIsPrefix(rate: nat, deadline: nat, grants: seq<Grant>, now: nat, k: nat)
    requires rate > 0 && Spaced(rate, deadline, grants) && k < |grants|
    ensures grants[k].release <= now <==> k < Released(grants, now)
    decreases |grants|
  {
    if grants[0].release > now {
      ReleasesIncrease(rate, deadline, grants, 0, k);
    } else if k > 0 {
      SpacedTail(rate, deadline, grants);
      ReleasedIsPrefix(rate, deadline, grants[1..], now, k - 1);
    }
  }

  lemma SpacedTail(rate: nat, deadline: nat, grants: seq<Grant>)
    requires rate > 0 && Spaced(rate, deadline, grants) && grants != []
    ensures Spaced(rate, deadline, grants[1..])
  {
    var t := grants[1..];
    forall i | 0 <= i < |t| - 1
      ensures t[i].release + DurationFor(rate, t[i].events).value <= t[i + 1].release
    {
      assert grants[i + 1].release + DurationFor(rate, grants[i + 1].events).value <= grants[i + 1 + 1].release;
    }
  }

  lemma PayStep(rate: nat, acc: nat, events: nat, before: nat, d: nat, total: nat)
    requires NANOS_PER_SEC * acc <= rate * before && NANOS_PER_SEC * events < rate * (d + 1)
    requires before + (d + 1) <= total
    ensures NANOS_PER_SEC * (acc + events) <= rate * total
  {
    assert rate * (before + (d + 1)) == rate * before + rate * (d + 1);
    MulMono(rate, before + (d + 1), total);
    assert NANOS_PER_SEC * (acc + events) == NANOS_PER_SEC * acc + NANOS_PER_SEC * events;
  }

  /** Grants before number `m` pay for themselves with the time between the first and the last release. */
  lemma {:induction false} SpacingPays(rate: nat, deadline: nat, grants: seq<Grant>, m: nat)
    requires rate > 0 && Spaced(rate, deadline, grants) && m < |grants|
    requires forall i :: 0 <= i < |grants| ==> NANOS_PER_SEC * grants[i].events / rate <= U64_MAX
    ensures grants[0].release <= grants[m].release
    ensures NANOS_PER_SEC * Sum(Events(grants[..m])) <= rate * (grants[m].release - grants[0].release + m)
    decreases m
  {
    ReleasesIncrease(rate, deadline, grants, 0, m);
    if m == 0 {
      assert Events(grants[..0]) == [];
    } else {
      SpacingPays(rate, deadline, grants, m - 1);
      var g := grants[m - 1];
      var d := DurationFor(rate, g.events).value;
      DurationCovers(rate, g.events);
      assert g.release + d <= grants[m - 1 + 1].release;
      assert Events(grants[..m]) == Events(grants[..m - 1]) + [g.events];
      SumAppend(Events(grants[..m - 1]), [g.events]);
      assert Sum([g.events]) == g.events + Sum([]);
      PayStep(rate, Sum(Events(grants[..m - 1])), g.events, g.release - grants[0].release + (m - 1), d,
              grants[m].release - grants[0].release + m);
    }
  }

  /** Usable grants are all released, so they are part of the released prefix. */
  lemma {:induction false} UsableWithinPrefix(grants: seq<Grant>, m: nat)
    requires m <= |grants|
    requires forall k :: m <= k < |grants| ==> !grants[k].status.Usable?
    ensures Sum(UsableEvents(grants)) <= Sum(Events(grants[..m]))
  {
    if grants == [] {
      assert UsableEvents(grants) == [];
    } else {
      assert UsableEvents(grants)[1..] == UsableEvents(grants[1..]);
      if m == 0 {
        UsableWithinPrefix(grants[1..], 0);
        assert Events(grants[..0]) == [] && Events(grants[1..][..0]) == [];
      } else {
        UsableWithinPrefix(grants[1..], m - 1);
        assert Events(grants[..m])[1..] == Events(grants[1..][..m - 1]);
      }
    }
  }

  lemma {:induction false} ConsumedWithinHeld(leases: seq<Lease>)
    ensures TotalConsumed(leases) <= Sum(Held(leases))
  {
    var c := seq(|leases|, i requires 0 <= i < |leases| => leases[i].consumed);
    if leases != [] {
      var t := leases[1..];
      assert c[1..] == seq(|t|, i requires 0 <= i < |t| => t[i].consumed);
      assert Held(leases)[1..] == Held(t);
      ConsumedWithinHeld(t);
    }
  }

  /** What every reachable state guarantees about each lease and about the grants. */
  lemma LeaseLedger(rate: nat, start: System, s: System, steps: seq<Step>)
    requires rate > 0 && Initial(start) && Reachable(rate, start, s, steps)
    ensures forall i :: 0 <= i < |s.leases| ==> s.leases[i].granted - s.leases[i].consumed == s.leases[i].remaining
    ensures forall i :: 0 <= i < |s.grants| - 1 ==>
              s.grants[i].release + DurationFor(rate, s.grants[i].events).value <= s.grants[i + 1].release
    ensures TotalConsumed(s.leases) <= Sum(UsableEvents(s.grants))
  {
    InitialInv(rate, start);
    ReachableInv(rate, start, s, steps);
    forall i | 0 <= i < |s.leases| ensures s.leases[i].granted - s.leases[i].consumed == s.leases[i].remaining {
      assert LeaseOk(s.leases[i], s.grants);
    }
    ConsumedWithinHeld(s.leases);
  }

  /** Everything usable was released, and all but the last released grant is paid for. */
  lemma ReleasedPays(rate: nat, s: System)
    requires rate > 0 && Inv(rate, s)
    requires forall i :: 0 <= i < |s.grants| ==> NANOS_PER_SEC * s.grants[i].events / rate <= U64_MAX
    requires Released(s.grants, s.now) > 0
    ensures var m := Released(s.grants, s.now);
            var acc := Sum(Events(s.grants[..m - 1]));
            && Sum(UsableEvents(s.grants)) <= acc + s.grants[m - 1].events
            && s.grants[0].release <= s.now
            && NANOS_PER_SEC * acc <= rate * (s.now - s.grants[0].release + (m - 1))
  {
    var m := Released(s.grants, s.now);
    var last := s.grants[m - 1];
    UsableReleased(rate, s);
    UsableWithinPrefix(s.grants, m);
    assert Events(s.grants[..m]) == Events(s.grants[..m - 1]) + [last.events];
    SumAppend(Events(s.grants[..m - 1]), [last.events]);
    assert Sum([last.events]) == last.events + Sum([]);
    ReleasedIsPrefix(rate, s.deadline, s.grants, s.now, m - 1);
    SpacingPays(rate, s.deadline, s.grants, m - 1);
    MulMono(rate, last.release - s.grants[0].release + (m - 1), s.now - s.grants[0].release + (m - 1));
  }

  lemma UsableReleased(rate: nat, s: System)
    requires rate > 0 && Inv(rate, s)
    ensures forall k :: Released(s.grants, s.now) <= k < |s.grants| ==> !s.grants[k].status.Usable?
  {
    forall k | Released(s.grants, s.now) <= k < |s.grants| ensures !s.grants[k].status.Usable? {
      ReleasedIsPrefix(rate, s.deadline, s.grants, s.now, k);
    }
  }

  /**
   * Global input rate bound, for any number of leases and any interleaving: what all workers have
   * consumed, less the last released grant, fits the configured rate since the first release, with
   * one nanosecond of floor rounding per grant.  Before the first release nothing is consumed.
   */
  lemma RateBound(rate: nat, start: System, s: System, steps: seq<Step>)
    requires rate > 0 && Initial(start) && Reachable(rate, start, s, steps)
    requires forall i :: 0 <= i < |s.grants| ==> NANOS_PER_SEC * s.grants[i].events / rate <= U64_MAX
    ensures var m := Released(s.grants, s.now);
            if m == 0 then TotalConsumed(s.leases) == 0
            else
              NANOS_PER_SEC * (TotalConsumed(s.leases) - s.grants[m - 1].events)
                <= rate * (s.now - s.grants[0].release + (m - 1))
  {
    InitialInv(rate, start);
    ReachableInv(rate, start, s, steps);
    LeaseLedger(rate, start, s, steps);
    var m := Released(s.grants, s.now);
    if m == 0 {
      UsableReleased(rate, s);
      UsableWithinPrefix(s.grants, 0);
      assert Events(s.grants[..0]) == [];
    } else {
      ReleasedPays(rate, s);
    }
  }
}

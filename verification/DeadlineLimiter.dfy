/** The per-task deadline limiter: a departure grid with catch-up.  Times are nanoseconds. */
module DeadlineLimiter {
  import opened Common

  const U32_RANGE: nat := 0x1_0000_0000

  /** Period of a limiter; zero means "unlimited".  The cast to 64 bits wraps. */
  function Period(secCount: nat, unitCnt: nat): nat {
    if secCount == 0 then 0 else (NANOS_PER_SEC * unitCnt / secCount) % U64_RANGE
  }

  datatype Decision = Decision(next: nat, wait: nat)

  /** Periods to skip when the deadline has already passed. */
  function Missed(period: nat, deadline: nat, now: nat): nat
    requires period > 0 && deadline <= now
  {
    (now - deadline) / period + 1
  }

  /** One call at time `now`; the skip count is cut to 32 bits before it is used. */
  function Decide(period: nat, deadline: nat, now: nat): Decision {
    if period == 0 then Decision(deadline, 0)
    else if now < deadline then Decision(deadline + period, deadline - now)
    else Decision(deadline + period * (Missed(period, deadline, now) % U32_RANGE), 0)
  }

  class RateLimiter {
    const period: nat
    var nextDeadline: nat

    constructor (secCount: nat, unitCnt: nat, now: nat)
      ensures period == Period(secCount, unitCnt)
      ensures nextDeadline == now + period
      ensures secCount > 0 && NANOS_PER_SEC * unitCnt < secCount * U64_RANGE ==> Spacing(secCount, unitCnt, period)
    {
      if secCount > 0 && NANOS_PER_SEC * unitCnt < secCount * U64_RANGE {
        PeriodFits(secCount, unitCnt);
      }
      var limit := 0;
      if secCount != 0 {
        limit := (NANOS_PER_SEC * unitCnt / secCount) % U64_RANGE;
      }
      period := limit;
      nextDeadline := if limit == 0 then now else now + limit;
    }

    method LimitSpeedTime(now: nat) returns (wait: nat)
      modifies this
      ensures Decision(nextDeadline, wait) == Decide(period, old(nextDeadline), now)
    {
      if period == 0 {
        return 0;
      }
      var deadline := nextDeadline;
      if now < deadline {
        wait := deadline - now;
        nextDeadline := deadline + period;
      } else {
        var behind := now - deadline;
        var missed := behind / period + 1;
        nextDeadline := deadline + period * (missed % U32_RANGE);
        wait := 0;
      }
    }
  }

  // ---------------------------------------------------------------- one call

  /** The skip count survives the cut to 32 bits. */
  predicate SkipFits(period: nat, deadline: nat, now: nat)
    requires period > 0
  {
    now < deadline || Missed(period, deadline, now) < U32_RANGE
  }

  /** `now` lies in the last skipped period. */
  lemma MissedBrackets(period: nat, deadline: nat, now: nat)
    requires period > 0 && deadline <= now
    ensures var m := Missed(period, deadline, now);
            deadline + period * (m - 1) <= now < deadline + period * m
  {
    var b := now - deadline;
    assert b == period * (b / period) + b % period;
  }

  /** A call departs inside its own slot exactly when the skip count was not truncated. */
  lemma DepartureInSlot(period: nat, deadline: nat, now: nat)
    requires period > 0
    ensures var d := Decide(period, deadline, now);
            deadline <= now + d.wait < d.next <==> SkipFits(period, deadline, now)
    ensures var d := Decide(period, deadline, now);
            SkipFits(period, deadline, now) ==>
              deadline + period <= d.next && now + d.wait < d.next <= now + d.wait + period
  {
    if deadline <= now {
      var m := Missed(period, deadline, now);
      MissedBrackets(period, deadline, now);
      if m < U32_RANGE {
        assert m % U32_RANGE == m;
        MulMono(period, 1, m);
        assert period * m == period * (m - 1) + period;
      } else {
        assert m % U32_RANGE <= m - 1;
        MulMono(period, m % U32_RANGE, m - 1);
      }
    }
  }

  /** The next deadline is the old one plus a whole number of periods, truncated or not. */
  lemma NextOnGrid(period: nat, deadline: nat, now: nat) returns (k: nat)
    requires period > 0
    ensures Decide(period, deadline, now).next == deadline + period * k
  {
    k := if now < deadline then 1 else Missed(period, deadline, now) % U32_RANGE;
  }

  /** Asking again at the same instant has to wait, exactly when nothing was truncated. */
  lemma SecondCallWaits(period: nat, deadline: nat, now: nat)
    requires period > 0
    ensures var next := Decide(period, deadline, now).next;
            Decide(period, next, now).wait > 0 <==> SkipFits(period, deadline, now)
  {
    DepartureInSlot(period, deadline, now);
  }

  /** A call waits for its deadline and no longer; a late call, or one without a limit, does not wait. */
  lemma WaitsForDeadline(period: nat, deadline: nat, now: nat)
    ensures var departure := now + Decide(period, deadline, now).wait;
            departure == if period > 0 && now < deadline then deadline else now
  {
  }

  // ---------------------------------------------------------------- whole runs

  datatype Slot = Slot(deadline: nat, departure: nat, next: nat)

  /** The slots used by calls at the given instants, starting with a deadline. */
  function Slots(period: nat, deadline: nat, nows: seq<nat>): (s: seq<Slot>)
    ensures |s| == |nows|
    decreases nows
  {
    if nows == [] then [] else
      var d := Decide(period, deadline, nows[0]);
      [Slot(deadline, nows[0] + d.wait, d.next)] + Slots(period, d.next, nows[1..])
  }

  /** Over a whole run the deadlines never leave the grid they started on, truncated or not. */
  lemma {:induction false} DeadlineStaysOnGrid(period: nat, deadline: nat, nows: seq<nat>, i: nat) returns (k: nat)
    requires period > 0 && i < |nows|
    ensures Slots(period, deadline, nows)[i].deadline == deadline + period * k
    decreases i
  {
    if i == 0 {
      k := 0;
    } else {
      var next := Decide(period, deadline, nows[0]).next;
      var first := NextOnGrid(period, deadline, nows[0]);
      var rest := DeadlineStaysOnGrid(period, next, nows[1..], i - 1);
      SlotsTail(period, deadline, nows, i);
      Distribute(period, first, rest);
      k := first + rest;
    }
  }

  lemma SlotsTail(period: nat, deadline: nat, nows: seq<nat>, i: nat)
    requires 0 < i < |nows|
    ensures Slots(period, deadline, nows)[i] == Slots(period, Decide(period, deadline, nows[0]).next, nows[1..])[i - 1]
  {
  }

  /** No call of the run truncates its skip count. */
  predicate AllFit(period: nat, deadline: nat, nows: seq<nat>)
    requires period > 0
    decreases nows
  {
    nows == [] ||
    (SkipFits(period, deadline, nows[0]) &&
     AllFit(period, Decide(period, deadline, nows[0]).next, nows[1..]))
  }

  /** Every departure of a run lies in its slot, and slots follow each other without overlap. */
  lemma {:induction false} SlotsOrdered(period: nat, deadline: nat, nows: seq<nat>, i: nat, j: nat)
    requires period > 0 && AllFit(period, deadline, nows)
    requires i <= j < |nows|
    ensures var s := Slots(period, deadline, nows);
            s[i].deadline <= s[i].departure < s[i].next &&
            s[j].deadline <= s[j].departure < s[j].next &&
            (i < j ==> s[j].deadline >= s[i].next + period * (j - i - 1))
    decreases j
  {
    var d := Decide(period, deadline, nows[0]);
    var rest := Slots(period, d.next, nows[1..]);
    DepartureInSlot(period, deadline, nows[0]);
    if 0 < i {
      SlotsOrdered(period, d.next, nows[1..], i - 1, j - 1);
    } else if 0 < j {
      SlotsOrdered(period, d.next, nows[1..], 0, j - 1);
      if 1 < j {
        DepartureInSlot(period, d.next, nows[1]);
        assert rest[0].next >= d.next + period;
        Distribute(period, j - 2, 1);
      }
    }
  }

  /** The first and last departure of a window of `k` periods are at most `k` calls apart. */
  lemma WindowSpan(period: nat, deadline: nat, nows: seq<nat>, t: nat, k: nat, i: nat, j: nat)
    requires period > 0 && AllFit(period, deadline, nows)
    requires i <= j < |nows|
    requires var s := Slots(period, deadline, nows);
             t <= s[i].departure && s[j].departure < t + k * period
    ensures j - i <= k
  {
    SlotsOrdered(period, deadline, nows, i, j);
    if i < j {
      MulMono(period, j - i - 1, k);
    }
  }

  /** No call comes after its deadline. */
  predicate Busy(period: nat, deadline: nat, nows: seq<nat>)
    decreases nows
  {
    nows == [] || (nows[0] <= deadline && Busy(period, deadline + period, nows[1..]))
  }

  /** Nobody is slowed down more than that: as long as calls do not come late they depart a period apart. */
  lemma {:induction false} BusyRunIsEven(period: nat, deadline: nat, nows: seq<nat>, i: nat)
    requires period > 0 && Busy(period, deadline, nows) && i < |nows|
    ensures Slots(period, deadline, nows)[i].departure == deadline + period * i
    decreases i
  {
    var d := Decide(period, deadline, nows[0]);
    if nows[0] == deadline {
      assert Missed(period, deadline, nows[0]) == 1;
      assert 1 % U32_RANGE == 1 && period * 1 == period;
    }
    assert d.next == deadline + period;
    if i > 0 {
      SlotsTail(period, deadline, nows, i);
      BusyRunIsEven(period, d.next, nows[1..], i - 1);
      Distribute(period, 1, i - 1);
    }
  }

  /** The departures of a run that fall into a half-open window. */
  function InWindow(s: seq<Slot>, lo: nat, hi: nat): set<nat> {
    set i: nat | 0 <= i < |s| && lo <= s[i].departure < hi
  }

  /** Rate guarantee: a half-open window of `k` periods holds at most `k + 1` departures. */
  lemma WindowBound(period: nat, deadline: nat, nows: seq<nat>, t: nat, k: nat)
    requires period > 0 && AllFit(period, deadline, nows)
    ensures |InWindow(Slots(period, deadline, nows), t, t + k * period)| <= k + 1
  {
    var s := Slots(period, deadline, nows);
    var inside := InWindow(s, t, t + k * period);
    if |inside| > 0 {
      var lo := HasSmallest(inside);
      forall x | x in inside ensures lo <= x < lo + (k + 1) {
        WindowSpan(period, deadline, nows, t, k, lo, x);
      }
      IntervalCardinality(inside, lo, k + 1);
    }
  }

  lemma {:induction false} HasSmallest(s: set<nat>) returns (m: nat)
    requires |s| > 0
    ensures m in s && forall x :: x in s ==> m <= x
  {
    m :| m in s;
    var rest := s - {m};
    assert s == rest + {m};
    if |rest| > 0 {
      var n := HasSmallest(rest);
      m := if n < m then n else m;
    }
  }

  // ------------------------------------------------------------ truncation

  predicate Monotone(nows: seq<nat>) {
    forall i, j :: 0 <= i <= j < |nows| ==> nows[i] <= nows[j]
  }

  /**
   * A call that finds itself at least 2^32 periods late leaves the deadline at least
   * 2^32 - 1 whole periods behind, whatever the later instant of the next call.
   */
  lemma TruncationKeepsLag(period: nat, deadline: nat, now: nat, later: nat)
    requires period > 0 && deadline <= now <= later
    requires Missed(period, deadline, now) >= U32_RANGE
    ensures var d := Decide(period, deadline, now);
            d.wait == 0 && d.next <= later && Missed(period, d.next, later) >= U32_RANGE
  {
    var m := Missed(period, deadline, now);
    var r := m % U32_RANGE;
    var next := deadline + period * r;
    MissedBrackets(period, deadline, now);
    assert m - r >= U32_RANGE by {
      assert m == U32_RANGE * (m / U32_RANGE) + r;
    }
    assert period * (m - 1) == period * r + period * (m - 1 - r);
    assert later - next >= period * (m - 1 - r);
    DivLower(later - next, period, m - 1 - r);
  }

  lemma DivLower(x: nat, p: nat, q: nat)
    requires p > 0 && x >= p * q
    ensures x / p >= q
  {
    assert x == p * (x / p) + x % p;
    assert p * (x / p + 1) == p * (x / p) + p;
    MulMono(p, q, x / p + 1);
  }

  /**
   * Truncation is permanent: from the first call that is 2^32 periods late, no later call is
   * ever delayed again, however fast the calls come.
   */
  lemma {:induction false} TruncationDisablesLimiter(period: nat, deadline: nat, nows: seq<nat>, i: nat)
    requires period > 0 && Monotone(nows) && i < |nows|
    requires deadline <= nows[0] && Missed(period, deadline, nows[0]) >= U32_RANGE
    ensures Slots(period, deadline, nows)[i].departure == nows[i]
    decreases i
  {
    TruncationKeepsLag(period, deadline, nows[0], nows[0]);
    if i > 0 {
      TruncationKeepsLag(period, deadline, nows[0], nows[1]);
      var d := Decide(period, deadline, nows[0]);
      TruncationDisablesLimiter(period, d.next, nows[1..], i - 1);
    }
  }

  /** The window guarantee is really lost: three calls in one instant all depart at once. */
  lemma TruncationBreaksWindow()
    ensures var nows := [U32_RANGE, U32_RANGE, U32_RANGE];
            |InWindow(Slots(1, 0, nows), U32_RANGE, U32_RANGE + 1 * 1)| == 3
  {
    var nows: seq<nat> := [U32_RANGE, U32_RANGE, U32_RANGE];
    TruncationDisablesLimiter(1, 0, nows, 0);
    TruncationDisablesLimiter(1, 0, nows, 1);
    TruncationDisablesLimiter(1, 0, nows, 2);
    assert InWindow(Slots(1, 0, nows), U32_RANGE, U32_RANGE + 1 * 1) == {0, 1, 2};
  }

  // ------------------------------------------------------------ rates

  /** Nanoseconds between the calls of a rate, before the cut to 64 bits: the floor of the quotient. */
  predicate Spacing(secCount: nat, unitCnt: nat, q: nat) {
    secCount * q <= NANOS_PER_SEC * unitCnt < secCount * (q + 1)
  }

  /** The period is that number of nanoseconds, up to a multiple of 2^64. */
  lemma PeriodIs(secCount: nat, unitCnt: nat) returns (k: nat)
    requires secCount > 0
    ensures Spacing(secCount, unitCnt, Period(secCount, unitCnt) + U64_RANGE * k)
    ensures Period(secCount, unitCnt) < U64_RANGE
    ensures NANOS_PER_SEC * unitCnt < secCount * U64_RANGE ==> k == 0
  {
    var x := NANOS_PER_SEC * unitCnt;
    var q := x / secCount;
    DivMod(x, secCount);
    Distribute(secCount, q, 1);
    k := q / U64_RANGE;
    DivMod(q, U64_RANGE);
    if x < secCount * U64_RANGE {
      MulMono(secCount, q, U64_RANGE);
    }
  }

  /** A rate that fits 64 bits has the period it should have. */
  lemma PeriodFits(secCount: nat, unitCnt: nat)
    requires secCount > 0 && NANOS_PER_SEC * unitCnt < secCount * U64_RANGE
    ensures Spacing(secCount, unitCnt, Period(secCount, unitCnt))
  {
    var k := PeriodIs(secCount, unitCnt);
  }

  /** Calls `i` to `j` of a run lie within a window of `len` nanoseconds. */
  predicate Within(s: seq<Slot>, i: nat, j: nat, t: nat, len: nat) {
    i <= j < |s| && t <= s[i].departure && s[j].departure < t + len
  }

  /**
   * The rate in calls per second, for a limiter built for `secCount` calls in `unitCnt` seconds: if calls
   * `i` to `j` depart within a window, all of them but two fit the window at this rate, up to a
   * nanosecond of rounding for each.
   */
  lemma CallsPerSecond(secCount: nat, unitCnt: nat, deadline: nat, nows: seq<nat>, t: nat, len: nat, i: nat, j: nat)
    requires secCount > 0 && NANOS_PER_SEC * unitCnt < secCount * U64_RANGE
    requires var period := Period(secCount, unitCnt);
             period > 0 && AllFit(period, deadline, nows) && Within(Slots(period, deadline, nows), i, j, t, len)
    ensures i < j ==> NANOS_PER_SEC * unitCnt * (j - i - 1) <= secCount * (len + (j - i - 1))
  {
    if i < j {
      var period, n := Period(secCount, unitCnt), j - i - 1;
      PeriodFits(secCount, unitCnt);
      SlotsOrdered(period, deadline, nows, i, j);
      assert period * n <= len;
      Scale(NANOS_PER_SEC * unitCnt, secCount, period, n, len);
    }
  }

  lemma Scale(x: nat, secCount: nat, period: nat, n: nat, len: nat)
    requires x <= secCount * (period + 1) && period * n <= len
    ensures x * n <= secCount * (len + n)
  {
    MulMono(n, x, secCount * (period + 1));
    assert x * n == n * x && n * (secCount * (period + 1)) == secCount * (n * (period + 1));
    Distribute(n, period, 1);
    MulMono(secCount, n * (period + 1), len + n);
  }

  /**
   * A limiter is off exactly if its count is zero, its rate is above 10^9 units per second, or its
   * period in nanoseconds wraps to zero in 64 bits.
   */
  lemma UnlimitedIff(secCount: nat, unitCnt: nat)
    ensures Period(secCount, unitCnt) == 0 <==>
              secCount == 0 || exists k: nat :: WrapsToZero(NANOS_PER_SEC * unitCnt, secCount, k)
  {
    if secCount > 0 {
      var x := NANOS_PER_SEC * unitCnt;
      var q := x / secCount;
      assert x == secCount * q + x % secCount;
      if q % U64_RANGE == 0 {
        var k := q / U64_RANGE;
        assert q == U64_RANGE * k;
        assert secCount * (q + 1) == secCount * q + secCount;
        assert WrapsToZero(x, secCount, k);
      }
      if k: nat :| WrapsToZero(x, secCount, k) {
        QuotientIs(x, secCount, U64_RANGE * k);
        assert (U64_RANGE * k) % U64_RANGE == 0;
      }
    }
  }

  /** The period lies in the `k`-th window of 64 bits, at its very start. */
  predicate WrapsToZero(nanos: nat, secCount: nat, k: nat) {
    secCount * (U64_RANGE * k) <= nanos < secCount * (U64_RANGE * k + 1)
  }

  lemma QuotientIs(x: nat, p: nat, q: nat)
    requires p > 0 && p * q <= x < p * (q + 1)
    ensures x / p == q
  {
    DivLower(x, p, q);
    var r := x / p;
    assert x == p * r + x % p;
    MulMono(p, r, q + 1);
  }
}

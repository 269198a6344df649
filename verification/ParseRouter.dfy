/** Round-robin dispatch of source batches to the bounded queues of the parse workers. */
module ParseRouter {
  import opened Common

  /** A worker's queue: a channel with a capacity whose receiver may be gone. */
  datatype Queue<B> = Queue(capacity: nat, items: seq<B>, open: bool)

  predicate HasRoom<B>(q: Queue<B>) { q.open && |q.items| < q.capacity }

  datatype Dispatch<B> = Sent | Full(batch: B) | Reloading(batch: B) | Closed(batch: B)

  /** `senders` are positions in the list of queues. */
  datatype RouterState = RouterState(senders: seq<nat>, nextIdx: nat, reloading: bool)

  function Replaced(senders: seq<nat>): RouterState { RouterState(senders, 0, false) }

  function Disconnected(): RouterState { RouterState([], 0, true) }

  predicate WellFormed<B>(senders: seq<nat>, queues: seq<Queue<B>>) {
    forall i :: 0 <= i < |senders| ==> senders[i] < |queues|
  }

  predicate SomeRoom<B>(senders: seq<nat>, queues: seq<Queue<B>>)
    requires WellFormed(senders, queues)
  {
    exists i :: 0 <= i < |senders| && HasRoom(queues[senders[i]])
  }

  predicate SomeOpen<B>(senders: seq<nat>, queues: seq<Queue<B>>)
    requires WellFormed(senders, queues)
  {
    exists i :: 0 <= i < |senders| && queues[senders[i]].open
  }

  class ParseDispatchRouter<B> {
    var senders: seq<nat>
    var nextIdx: nat
    var reloading: bool
    var queues: seq<Queue<B>>

    ghost function View(): RouterState
      reads this
    {
      RouterState(senders, nextIdx, reloading)
    }

    constructor (senders: seq<nat>, queues: seq<Queue<B>>)
      ensures View() == Replaced(senders) && this.queues == queues
    {
      this.senders, this.queues := senders, queues;
      nextIdx, reloading := 0, false;
    }

    method Replace(next: seq<nat>)
      modifies this`senders, this`nextIdx, this`reloading
      ensures View() == Replaced(next)
    {
      senders := next;
      nextIdx := 0;
      reloading := false;
    }

    method BeginReload()
      modifies this`senders, this`nextIdx, this`reloading
      ensures View() == Disconnected()
    {
      senders := [];
      nextIdx := 0;
      reloading := true;
    }

    /** One try on one queue; a refused batch is handed back. */
    method TrySend(q: nat, batch: B) returns (refused: bool, full: bool)
      requires q < |queues|
      modifies this`queues
      ensures refused <==> !HasRoom(old(queues)[q])
      ensures refused ==> queues == old(queues) && (full <==> old(queues)[q].open)
      ensures !refused ==> queues == Accepted(old(queues), q, batch)
    {
      refused, full := true, false;
      if !queues[q].open {
        return;
      }
      if |queues[q].items| >= queues[q].capacity {
        full := true;
        return;
      }
      queues := queues[q := queues[q].(items := queues[q].items + [batch])];
      refused := false;
    }

    /**
     * Neither loses nor duplicates: a batch lands in exactly one queue, or comes back unchanged
     * with no queue touched, and the answer tells which case applied.
     */
    method TrySendRoundRobin(batch: B) returns (r: Dispatch<B>)
      requires WellFormed(senders, queues)
      modifies this`nextIdx, this`queues
      ensures r.Sent? <==> SomeRoom(senders, old(queues))
      ensures r.Full? <==> !r.Sent? && SomeOpen(senders, old(queues))
      ensures r == Answer(old(View()), old(queues), batch)
      ensures View() == Attempted(old(View()))
      ensures !r.Sent? ==> r.batch == batch && queues == old(queues)
      ensures !r.Sent? ==> forall i :: 0 <= i < |senders| ==>
                var q := queues[senders[i]]; !q.open || |q.items| >= q.capacity
      ensures WithinCapacity(old(queues)) ==> WithinCapacity(queues)
      ensures r.Sent? ==>
                queues == Accepted(old(queues), Target(senders, old(queues), old(nextIdx)), batch)
    {
      if senders == [] {
        if reloading {
          return Reloading(batch);
        }
        return Closed(batch);
      }
      var start := nextIdx % |senders|;
      nextIdx := (nextIdx + 1) % U64_RANGE;
      var sent, sawFull := TryAll(batch, start);
      r := if sent then Sent else if sawFull then Full(batch) else Closed(batch);
      if !sent {
        AllFull(senders, queues);
      }
    }

    /** Tries the senders in turn, beginning at a position. */
    method TryAll(batch: B, start: nat) returns (sent: bool, sawFull: bool)
      requires WellFormed(senders, queues) && start < |senders|
      modifies this`queues
      ensures sent <==> SomeRoom(senders, old(queues))
      ensures !sent ==> queues == old(queues) && (sawFull <==> SomeOpen(senders, queues))
      ensures sent ==>
                queues == Accepted(old(queues), At(senders, start, FirstRoom(senders, old(queues), start, 0)), batch)
      ensures WithinCapacity(old(queues)) ==> WithinCapacity(queues)
    {
      RoomAmongSenders(senders, queues, start);
      OpenAmongSenders(senders, queues, start);
      sawFull := false;
      var offset := 0;
      while offset < |senders|
        invariant 0 <= offset <= |senders|
        invariant queues == old(queues)
        invariant FirstRoom(senders, queues, start, 0) == FirstRoom(senders, queues, start, offset)
        invariant sawFull <==> AnyOpen(senders, queues, start, offset)
      {
        var idx := (start + offset) % |senders|;
        var refused, full := TrySend(senders[idx], batch);
        if !refused {
          AcceptedFits(old(queues), senders[idx], batch);
          return true, sawFull;
        }
        if full {
          sawFull := true;
        }
        offset := offset + 1;
      }
      sent := false;
    }
  }

  // ------------------------------------------------- answers over whole runs

  /** What a dispatch answers on the queues it finds. */
  function Answer<B>(s: RouterState, queues: seq<Queue<B>>, batch: B): Dispatch<B>
    requires WellFormed(s.senders, queues)
  {
    if SomeRoom(s.senders, queues) then Sent
    else if SomeOpen(s.senders, queues) then Full(batch)
    else if s.senders == [] && s.reloading then Reloading(batch)
    else Closed(batch)
  }

  /** The round-robin counter moves with every dispatch to some sender. */
  function Attempted(s: RouterState): RouterState {
    if s.senders == [] then s else s.(nextIdx := (s.nextIdx + 1) % U64_RANGE)
  }

  /** Calls on the router, by the engine and by the pickers. */
  datatype Act = Swap(next: seq<nat>) | CutOff | Attempt

  function Done(s: RouterState, act: Act): RouterState {
    match act
    case Swap(next) => Replaced(next)
    case CutOff => Disconnected()
    case Attempt => Attempted(s)
  }

  function Run(s: RouterState, acts: seq<Act>): RouterState {
    if acts == [] then s else Done(Run(s, acts[..|acts| - 1]), acts[|acts| - 1])
  }

  /** Since act `k` there were only dispatches. */
  predicate LastChange(acts: seq<Act>, k: nat) {
    k < |acts| && !acts[k].Attempt? && forall j :: k < j < |acts| ==> acts[j].Attempt?
  }

  /** The last change decides the state, and the dispatches since then are counted. */
  lemma {:induction false} StateFollowsLastChange(start: RouterState, acts: seq<Act>, k: nat)
    requires LastChange(acts, k)
    ensures var s := Run(start, acts);
            match acts[k]
            case CutOff => s.senders == [] && s.reloading
            case Swap(next) =>
              s.senders == next && !s.reloading && (next != [] ==> s.nextIdx == (|acts| - 1 - k) % U64_RANGE)
            case Attempt => false
  {
    var n := |acts| - 1;
    if k < n {
      assert LastChange(acts[..n], k);
      StateFollowsLastChange(start, acts[..n], k);
      NextStart(U64_RANGE, 0, n - 1 - k);
    }
  }

  /**
   * After any run of calls: a batch is told to wait for a reload exactly if the last change cut the
   * router off, and that there is nowhere to go exactly if the last change was a replacement none of
   * whose queues is open, by no senders at all in particular.
   */
  lemma AnswerFollowsLastChange<B>(start: RouterState, acts: seq<Act>, k: nat, queues: seq<Queue<B>>, batch: B)
    requires LastChange(acts, k) && WellFormed(Run(start, acts).senders, queues)
    ensures var r := Answer(Run(start, acts), queues, batch);
            && (r.Reloading? <==> acts[k].CutOff?)
            && (r.Closed? <==> acts[k].Swap? && forall q :: q in acts[k].next ==> q < |queues| && !queues[q].open)
            && (!r.Sent? ==> r.batch == batch)
  {
    StateFollowsLastChange(start, acts, k);
    var s := Run(start, acts);
    assert forall i :: 0 <= i < |s.senders| ==> s.senders[i] in s.senders;
  }

  // ------------------------------------------------------- which queue is chosen

  function Accepted<B>(queues: seq<Queue<B>>, q: nat, batch: B): seq<Queue<B>>
    requires q < |queues|
  {
    queues[q := queues[q].(items := queues[q].items + [batch])]
  }

  predicate WithinCapacity<B>(queues: seq<Queue<B>>) {
    forall k :: 0 <= k < |queues| ==> |queues[k].items| <= queues[k].capacity
  }

  lemma AcceptedFits<B>(queues: seq<Queue<B>>, q: nat, batch: B)
    requires q < |queues| && HasRoom(queues[q])
    ensures WithinCapacity(queues) ==> WithinCapacity(Accepted(queues, q, batch))
  {
  }

  /** Without room every queue is closed or full. */
  lemma AllFull<B>(senders: seq<nat>, queues: seq<Queue<B>>)
    requires WellFormed(senders, queues) && !SomeRoom(senders, queues)
    ensures forall i :: 0 <= i < |senders| ==>
              var q := queues[senders[i]]; !q.open || |q.items| >= q.capacity
  {
  }

  /** The sender tried at the given offset from the start of the round. */
  function At(senders: seq<nat>, start: nat, offset: nat): nat
    requires senders != []
  {
    senders[(start + offset) % |senders|]
  }

  /** First offset whose queue has room. */
  function FirstRoom<B>(senders: seq<nat>, queues: seq<Queue<B>>, start: nat, from: nat): (k: nat)
    requires senders != [] && WellFormed(senders, queues) && from <= |senders|
    ensures from <= k <= |senders|
    ensures k < |senders| ==> HasRoom(queues[At(senders, start, k)])
    ensures forall j :: from <= j < k ==> !HasRoom(queues[At(senders, start, j)])
    decreases |senders| - from
  {
    if from == |senders| || HasRoom(queues[At(senders, start, from)]) then from
    else FirstRoom(senders, queues, start, from + 1)
  }

  /** Some queue tried before the given offset was open. */
  predicate AnyOpen<B>(senders: seq<nat>, queues: seq<Queue<B>>, start: nat, offset: nat)
    requires senders != [] && WellFormed(senders, queues)
  {
    offset > 0 && (queues[At(senders, start, offset - 1)].open || AnyOpen(senders, queues, start, offset - 1))
  }

  /** Position `i` of the senders is tried at this offset. */
  function OffsetOf(n: nat, start: nat, i: nat): (k: nat)
    requires i < n && start < n
    ensures k < n && (start + k == i || start + k == i + n)
  {
    if i >= start then i - start else i + n - start
  }

  lemma OffsetHits(n: nat, start: nat, i: nat)
    requires i < n && start < n
    ensures (start + OffsetOf(n, start, i)) % n == i
  {
    var x := start + OffsetOf(n, start, i);
    if x == i {
      ModUnique(x, 0, i, n);
    } else {
      ModUnique(x, 1, i, n);
    }
  }

  lemma RoomAmongSenders<B>(senders: seq<nat>, queues: seq<Queue<B>>, start: nat)
    requires WellFormed(senders, queues) && start < |senders|
    ensures FirstRoom(senders, queues, start, 0) < |senders|
            <==> SomeRoom(senders, queues)
  {
    var k := FirstRoom(senders, queues, start, 0);
    if k < |senders| {
      assert HasRoom(queues[senders[(start + k) % |senders|]]);
    } else {
      forall i | 0 <= i < |senders| ensures !HasRoom(queues[senders[i]]) {
        var j := OffsetOf(|senders|, start, i);
        OffsetHits(|senders|, start, i);
        assert !HasRoom(queues[At(senders, start, j)]);
      }
    }
  }

  lemma {:induction false} OpenBefore<B>(senders: seq<nat>, queues: seq<Queue<B>>, start: nat, offset: nat, k: nat)
    requires senders != [] && WellFormed(senders, queues) && k < offset && queues[At(senders, start, k)].open
    ensures AnyOpen(senders, queues, start, offset)
    decreases offset
  {
    if k < offset - 1 {
      OpenBefore(senders, queues, start, offset - 1, k);
    }
  }

  lemma {:induction false} FindOpen<B>(senders: seq<nat>, queues: seq<Queue<B>>, start: nat, offset: nat) returns (i: nat)
    requires senders != [] && WellFormed(senders, queues) && AnyOpen(senders, queues, start, offset)
    ensures i < |senders| && queues[senders[i]].open
  {
    if queues[At(senders, start, offset - 1)].open {
      i := (start + (offset - 1)) % |senders|;
    } else {
      i := FindOpen(senders, queues, start, offset - 1);
    }
  }

  lemma OpenAmongSenders<B>(senders: seq<nat>, queues: seq<Queue<B>>, start: nat)
    requires WellFormed(senders, queues) && start < |senders|
    ensures AnyOpen(senders, queues, start, |senders|)
            <==> SomeOpen(senders, queues)
  {
    if AnyOpen(senders, queues, start, |senders|) {
      var i := FindOpen(senders, queues, start, |senders|);
    }
    if i: nat :| i < |senders| && queues[senders[i]].open {
      var k := OffsetOf(|senders|, start, i);
      OffsetHits(|senders|, start, i);
      OpenBefore(senders, queues, start, |senders|, k);
    }
  }

  /** The queue a dispatch reaches when some sender has room. */
  function Target<B>(senders: seq<nat>, queues: seq<Queue<B>>, nextIdx: nat): (q: nat)
    requires WellFormed(senders, queues) && SomeRoom(senders, queues)
    ensures q in senders && q < |queues| && HasRoom(queues[q])
  {
    var start := nextIdx % |senders|;
    RoomAmongSenders(senders, queues, start);
    At(senders, start, FirstRoom(senders, queues, start, 0))
  }

  // ------------------------------------------------------- fairness of a round

  /** Start position of the `j`-th of several dispatches; the counter wraps at `wrap`. */
  function StartOf(wrap: nat, nextIdx: nat, j: nat, n: nat): (i: nat)
    requires n > 0 && wrap > 0
    ensures i < n
  {
    ((nextIdx + j) % wrap) % n
  }

  /** No wrap during the round, or a worker count that divides the counter's range. */
  predicate EvenRound(wrap: nat, nextIdx: nat, n: nat)
    requires n > 0
  {
    nextIdx + n <= wrap || wrap % n == 0
  }

  lemma ModStep(x: nat, d: nat, n: nat)
    requires 0 < d < n
    ensures x % n != (x + d) % n
  {
    var q, r := x / n, x % n;
    assert x == n * q + r;
    if r + d < n {
      ModUnique(x + d, q, r + d, n);
    } else {
      assert n * (q + 1) == n * q + n;
      ModUnique(x + d, q + 1, r + d - n, n);
    }
  }

  lemma MulAssoc(a: nat, b: nat, c: nat)
    ensures (a * b) * c == a * (b * c)
  {
  }

  /** Reducing modulo a multiple first does not change the remainder. */
  lemma ModOfMultiple(x: nat, m: nat, n: nat)
    requires n > 0 && m > 0 && m % n == 0
    ensures (x % m) % n == x % n
  {
    var k, t, y := m / n, x / m, x % m;
    DivMod(m, n);
    DivMod(x, m);
    var q, r := y / n, y % n;
    DivMod(y, n);
    RegroupMultiple(x, n, k, t, q, r);
    ModUnique(x, k * t + q, r, n);
  }

  lemma RegroupMultiple(x: nat, n: nat, k: nat, t: nat, q: nat, r: nat)
    requires x == (n * k) * t + (n * q + r)
    ensures x == n * (k * t + q) + r
  {
    MulAssoc(n, k, t);
    var kt := k * t;
    assert n * (kt + q) == n * kt + n * q;
  }

  lemma EvenStartsDiffer(wrap: nat, nextIdx: nat, n: nat, j: nat, k: nat)
    requires 0 < n && nextIdx < wrap && j < k < n && EvenRound(wrap, nextIdx, n)
    ensures StartOf(wrap, nextIdx, j, n) != StartOf(wrap, nextIdx, k, n)
  {
    ModStep(nextIdx + j, k - j, n);
    if nextIdx + n <= wrap {
      ModUnique(nextIdx + j, 0, nextIdx + j, wrap);
      ModUnique(nextIdx + k, 0, nextIdx + k, wrap);
    } else {
      ModOfMultiple(nextIdx + j, wrap, n);
      ModOfMultiple(nextIdx + k, wrap, n);
    }
  }

  /** A counter that wraps inside the round makes two dispatches start at the same worker. */
  lemma UnevenStartsCollide(wrap: nat, nextIdx: nat, n: nat) returns (j: nat, k: nat)
    requires 0 < n < wrap && nextIdx < wrap && !EvenRound(wrap, nextIdx, n)
    ensures j < k < n && StartOf(wrap, nextIdx, j, n) == StartOf(wrap, nextIdx, k, n)
  {
    var w := wrap - nextIdx;
    var q, r := wrap / n, wrap % n;
    assert wrap == n * q + r;
    var x := if r <= n - w then 1 else r - (n - w - 1);
    j, k := w - x, w + r - x;
    ModUnique(nextIdx + j, 0, wrap - x, wrap);
    ModUnique(wrap - x, q, r - x, n);
    ModUnique(nextIdx + k, 1, r - x, wrap);
    ModUnique(r - x, 0, r - x, n);
  }

  /** The dispatches of a round start at pairwise different workers exactly for an even round. */
  lemma RoundVisitsAllIff(wrap: nat, nextIdx: nat, n: nat)
    requires 0 < n < wrap && nextIdx < wrap
    ensures (forall j, k :: 0 <= j < k < n ==> StartOf(wrap, nextIdx, j, n) != StartOf(wrap, nextIdx, k, n))
            <==> EvenRound(wrap, nextIdx, n)
  {
    if EvenRound(wrap, nextIdx, n) {
      forall j, k | 0 <= j < k < n ensures StartOf(wrap, nextIdx, j, n) != StartOf(wrap, nextIdx, k, n) {
        EvenStartsDiffer(wrap, nextIdx, n, j, k);
      }
    } else {
      var j, k := UnevenStartsCollide(wrap, nextIdx, n);
    }
  }

  /** The queues after dispatching the batches one after the other, while some worker has room. */
  function Round<B>(wrap: nat, senders: seq<nat>, queues: seq<Queue<B>>, nextIdx: nat, batches: seq<B>): seq<Queue<B>>
    requires WellFormed(senders, queues) && wrap > 0
    decreases batches
  {
    if batches == [] || !SomeRoom(senders, queues) then queues
    else
      Round(wrap, senders, Accepted(queues, Target(senders, queues, nextIdx), batches[0]),
            (nextIdx + 1) % wrap, batches[1..])
  }

  /** A dispatch whose start position has room goes there. */
  lemma TargetAtStart<B>(senders: seq<nat>, queues: seq<Queue<B>>, nextIdx: nat)
    requires WellFormed(senders, queues) && senders != []
    requires HasRoom(queues[senders[nextIdx % |senders|]])
    ensures SomeRoom(senders, queues) && Target(senders, queues, nextIdx) == senders[nextIdx % |senders|]
  {
    var n, start := |senders|, nextIdx % |senders|;
    ModUnique(start + 0, 0, start, n);
  }

  lemma NextStart(wrap: nat, first: nat, j: nat)
    requires wrap > 0
    ensures ((first + j) % wrap + 1) % wrap == (first + (j + 1)) % wrap
  {
    var q, r := (first + j) / wrap, (first + j) % wrap;
    assert first + j == wrap * q + r;
    if r + 1 < wrap {
      ModUnique(first + (j + 1), q, r + 1, wrap);
      ModUnique(r + 1, 0, r + 1, wrap);
    } else {
      assert wrap * (q + 1) == wrap * q + wrap;
      ModUnique(first + (j + 1), q + 1, 0, wrap);
      ModUnique(r + 1, 1, 0, wrap);
    }
  }

  /** Worker reached by dispatch `k` of a round. */
  function Reached(wrap: nat, senders: seq<nat>, first: nat, k: nat): nat
    requires wrap > 0 && senders != []
  {
    senders[StartOf(wrap, first, k, |senders|)]
  }

  predicate Distinct(senders: seq<nat>) {
    forall a, b :: 0 <= a < b < |senders| ==> senders[a] != senders[b]
  }

  lemma ReachedDiffer(wrap: nat, senders: seq<nat>, first: nat, j: nat, k: nat)
    requires first < wrap && Distinct(senders) && j < |senders| && k < |senders| && j != k
    requires EvenRound(wrap, first, |senders|)
    ensures Reached(wrap, senders, first, j) != Reached(wrap, senders, first, k)
  {
    if j < k {
      EvenStartsDiffer(wrap, first, |senders|, j, k);
    } else {
      EvenStartsDiffer(wrap, first, |senders|, k, j);
    }
  }

  /** The counter values and the workers of the dispatches of a round, position by position. */
  predicate Schedule(wrap: nat, senders: seq<nat>, counters: seq<nat>, targets: seq<nat>)
    requires wrap > 0 && senders != []
  {
    && |counters| == |targets|
    && (forall m :: 0 <= m < |counters| - 1 ==> counters[m + 1] == (counters[m] + 1) % wrap)
    && (forall m :: 0 <= m < |counters| ==> targets[m] == senders[counters[m] % |senders|])
  }

  /** Dispatches whose targets are different and all have room deliver one batch to each. */
  lemma {:induction false} ScheduleDelivers<B>(wrap: nat, senders: seq<nat>, queues: seq<Queue<B>>,
                                               counters: seq<nat>, targets: seq<nat>, batches: seq<B>, q: nat)
    requires wrap > 0 && senders != [] && WellFormed(senders, queues)
    requires Schedule(wrap, senders, counters, targets) && |batches| == |targets| > 0
    requires Distinct(targets)
    requires forall m :: 0 <= m < |targets| ==> targets[m] < |queues| && HasRoom(queues[targets[m]])
    requires q < |queues|
    ensures var after := Round(wrap, senders, queues, counters[0], batches);
            && |after| == |queues|
            && (q !in targets ==> after[q] == queues[q])
            && (forall k :: 0 <= k < |targets| && targets[k] == q ==>
                  after[q].items == queues[q].items + [batches[k]])
    decreases |batches|
  {
    TargetAtStart(senders, queues, counters[0]);
    var queues' := Accepted(queues, targets[0], batches[0]);
    if |batches| == 1 {
      assert batches[1..] == [];
      assert Round(wrap, senders, queues', (counters[0] + 1) % wrap, batches[1..]) == queues';
    } else {
      var cs, ts, bs := counters[1..], targets[1..], batches[1..];
      assert Schedule(wrap, senders, cs, ts) by {
        forall m | 0 <= m < |cs| - 1 ensures cs[m + 1] == (cs[m] + 1) % wrap {
          assert counters[m + 1 + 1] == (counters[m + 1] + 1) % wrap;
        }
      }
      assert counters[0 + 1] == (counters[0] + 1) % wrap;
      ScheduleDelivers(wrap, senders, queues', cs, ts, bs, q);
    }
  }

  lemma BuildSchedule(wrap: nat, senders: seq<nat>, nextIdx: nat) returns (counters: seq<nat>, targets: seq<nat>)
    requires nextIdx < wrap && senders != []
    ensures Schedule(wrap, senders, counters, targets)
    ensures |counters| == |senders| && counters[0] == nextIdx
    ensures forall m :: 0 <= m < |targets| ==> targets[m] == Reached(wrap, senders, nextIdx, m) && targets[m] in senders
  {
    var n := |senders|;
    counters := seq(n, m requires 0 <= m < n => (nextIdx + m) % wrap);
    targets := seq(n, m requires 0 <= m < n => Reached(wrap, senders, nextIdx, m));
    forall m | 0 <= m < n - 1 ensures counters[m + 1] == (counters[m] + 1) % wrap {
      NextStart(wrap, nextIdx, m);
    }
    ModUnique(nextIdx + 0, 0, nextIdx, wrap);
  }

  lemma ReachedAllDiffer(wrap: nat, senders: seq<nat>, nextIdx: nat, targets: seq<nat>)
    requires nextIdx < wrap && Distinct(senders) && 0 < |senders| == |targets|
    requires EvenRound(wrap, nextIdx, |senders|)
    requires forall m :: 0 <= m < |targets| ==> targets[m] == Reached(wrap, senders, nextIdx, m)
    ensures Distinct(targets)
  {
    forall a, b | 0 <= a < b < |targets| ensures targets[a] != targets[b] {
      ReachedDiffer(wrap, senders, nextIdx, a, b);
    }
  }

  /**
   * Fair round: `n` dispatches to `n` different workers with room give each worker exactly one
   * batch, dispatch `k` going to the worker at its start position.
   */
  lemma FairRound<B>(wrap: nat, senders: seq<nat>, queues: seq<Queue<B>>, nextIdx: nat, batches: seq<B>, k: nat)
    requires WellFormed(senders, queues) && nextIdx < wrap && k < |senders| == |batches| && Distinct(senders)
    requires forall i :: 0 <= i < |senders| ==> HasRoom(queues[senders[i]])
    requires EvenRound(wrap, nextIdx, |senders|)
    ensures var q := Reached(wrap, senders, nextIdx, k);
            var after := Round(wrap, senders, queues, nextIdx, batches);
            |after| == |queues| && after[q].items == queues[q].items + [batches[k]]
  {
    var counters, targets := BuildSchedule(wrap, senders, nextIdx);
    ReachedAllDiffer(wrap, senders, nextIdx, targets);
    ScheduleDelivers(wrap, senders, queues, counters, targets, batches, targets[k]);
  }
}

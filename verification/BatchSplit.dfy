/**
 * Cutting a unit of generated lines into sub-batches.  A sub-batch is flushed when the next line
 * would exceed a byte budget, or at a fixed number of lines; the budget follows a moving average of
 * the line lengths.  Averages are real numbers here.
 */
module BatchSplit {
  import opened Common

  type Line = seq<Byte>

  const FLUSH_LINES: nat := 4_096
  const BUDGET_MIN: nat := 8 * 1024
  const BUDGET_MAX: nat := 1024 * 1024
  const SEED_BUDGET: nat := 256 * 1024
  const EMA_ALPHA: real := 0.02
  const TIME_WINDOW: real := 0.1

  // ----------------------------------------------------------------- policy

  datatype Policy = Policy(rate: nat, avg: real, initialized: bool)

  function Observe(p: Policy, len: nat): Policy {
    if !p.initialized then p.(avg := len as real, initialized := true)
    else p.(avg := EMA_ALPHA * (len as real) + (1.0 - EMA_ALPHA) * p.avg)
  }

  function Clamp(x: int, lo: int, hi: int): int { if x < lo then lo else if x > hi then hi else x }

  function Budget(p: Policy): (b: nat)
    ensures BUDGET_MIN <= b <= BUDGET_MAX
  {
    if p.rate == 0 then BUDGET_MAX
    else if !p.initialized then SEED_BUDGET
    else Clamp((p.rate as real * p.avg * TIME_WINDOW).Floor, BUDGET_MIN, BUDGET_MAX)
  }

  /**
   * The budget is what the rate sends in a tenth of a second at the average line length, rounded down,
   * within its limits; the upper limit without a rate, and 256 KiB before the first line.
   */
  lemma BudgetIs(p: Policy)
    ensures p.rate == 0 ==> Budget(p) == 1_048_576
    ensures p.rate > 0 && !p.initialized ==> Budget(p) == 262_144
    ensures p.rate > 0 && p.initialized ==>
              var b, bytes := Budget(p) as real, p.rate as real * p.avg;
              && (10.0 * b <= bytes || Budget(p) == 8_192)
              && (bytes < 10.0 * (b + 1.0) || Budget(p) == 1_048_576)
  {
    var x := p.rate as real * p.avg * TIME_WINDOW;
    assert x.Floor as real <= x < x.Floor as real + 1.0;
  }

  /** The policy after it has seen the first `k` lines of a run. */
  function Watch(p: Policy, run: seq<Line>, k: nat): Policy
    requires k <= |run|
  {
    if k == 0 then p else Observe(Watch(p, run, k - 1), |run[k - 1]|)
  }

  /** The average never leaves the range of the lengths it has seen. */
  lemma {:induction false} AverageInRange(p: Policy, run: seq<Line>, k: nat, lo: real, hi: real)
    requires k <= |run|
    requires p.initialized ==> lo <= p.avg <= hi
    requires forall i :: 0 <= i < k ==> lo <= |run[i]| as real <= hi
    ensures p.initialized || k > 0 ==> Watch(p, run, k).initialized && lo <= Watch(p, run, k).avg <= hi
  {
    if k > 0 {
      AverageInRange(p, run, k - 1, lo, hi);
    }
  }

  function Power(x: real, k: nat): real { if k == 0 then 1.0 else x * Power(x, k - 1) }

  /** Every further line moves the average a fiftieth of the way; the first one sets it. */
  lemma AverageMoves(p: Policy, len: nat)
    ensures Observe(p, len).initialized && Observe(p, len).rate == p.rate
    ensures if p.initialized then 50.0 * (Observe(p, len).avg - p.avg) == len as real - p.avg
            else Observe(p, len).avg == len as real
  {
  }

  /** On lines of one length the distance of the average from it decays by two percent a line. */
  lemma {:induction false} AverageConverges(p: Policy, run: seq<Line>, k: nat, len: nat)
    requires k <= |run| && p.initialized && forall i :: 0 <= i < k ==> |run[i]| == len
    ensures Watch(p, run, k).initialized
    ensures Watch(p, run, k).avg - len as real == Power(0.98, k) * (p.avg - len as real)
  {
    if k > 0 {
      var before := Watch(p, run, k - 1);
      AverageConverges(p, run, k - 1, len);
      AverageMoves(before, len);
      Rescale(before.avg - len as real, p.avg - len as real, k);
    }
  }

  lemma Rescale(now: real, first: real, k: nat)
    requires k > 0 && now == Power(0.98, k - 1) * first
    ensures 0.98 * now == Power(0.98, k) * first
  {
  }

  class BatchSizePolicy {
    const baseRate: nat
    var avgLineBytes: real
    var initialized: bool

    constructor (baseRate: nat)
      ensures View() == Policy(baseRate, 0.0, false)
    {
      this.baseRate := baseRate;
      avgLineBytes, initialized := 0.0, false;
    }

    function View(): Policy
      reads this
    {
      Policy(baseRate, avgLineBytes, initialized)
    }

    method ObserveLine(len: nat)
      modifies this
      ensures View() == Observe(old(View()), len)
    {
      if !initialized {
        avgLineBytes := len as real;
        initialized := true;
      } else {
        avgLineBytes := EMA_ALPHA * (len as real) + (1.0 - EMA_ALPHA) * avgLineBytes;
      }
    }

    method BudgetBytes() returns (b: nat)
      ensures b == Budget(View())
    {
      if baseRate == 0 {
        return BUDGET_MAX;
      }
      if !initialized {
        return SEED_BUDGET;
      }
      var byteRate := baseRate as real * avgLineBytes;
      var budget := (byteRate * TIME_WINDOW).Floor;
      b := if budget < BUDGET_MIN then BUDGET_MIN else if budget > BUDGET_MAX then BUDGET_MAX else budget;
    }
  }

  // ------------------------------------------------------- what a good cut is

  /** Bytes of the lines from `a` up to `b`. */
  function Bytes(run: seq<Line>, a: nat, b: nat): nat
    requires a <= b <= |run|
  {
    if a == b then 0 else Bytes(run, a, b - 1) + |run[b - 1]|
  }

  /**
   * Lines `a` to `b` of a run may go out together: not too many, and each line after the first was
   * within the budget in force before it was seen.
   */
  predicate Fits(p: Policy, run: seq<Line>, a: nat, b: nat)
    decreases b
  {
    && a < b <= |run| && b - a <= FLUSH_LINES
    && (b == a + 1 || (Fits(p, run, a, b - 1) && Bytes(run, a, b) <= Budget(Watch(p, run, b - 1))))
  }

  /** The sub-batch could not have taken one more line. */
  predicate Forced(p: Policy, run: seq<Line>, a: nat, b: nat) { b == |run| || !Fits(p, run, a, b + 1) }

  function Last(cuts: seq<nat>): nat requires cuts != [] { cuts[|cuts| - 1] }

  /** Cut positions starting at 0, each piece fitting. */
  predicate Legal(p: Policy, run: seq<Line>, cuts: seq<nat>) {
    if |cuts| <= 1 then cuts == [0]
    else Legal(p, run, cuts[..|cuts| - 1]) && Fits(p, run, cuts[|cuts| - 2], Last(cuts))
  }

  /** No piece could have been longer. */
  predicate Greedy(p: Policy, run: seq<Line>, cuts: seq<nat>) {
    if |cuts| <= 1 then cuts == [0]
    else
      && Greedy(p, run, cuts[..|cuts| - 1]) && Fits(p, run, cuts[|cuts| - 2], Last(cuts))
      && Forced(p, run, cuts[|cuts| - 2], Last(cuts))
  }

  predicate Complete(run: seq<Line>, cuts: seq<nat>) { cuts != [] && cuts[|cuts| - 1] == |run| }

  function Slice(run: seq<Line>, a: nat, b: nat): seq<Line> { if a <= b <= |run| then run[a..b] else [] }

  /** The sub-batches between consecutive cuts. */
  function Pieces(run: seq<Line>, cuts: seq<nat>): (r: seq<seq<Line>>)
    ensures |r| == if cuts == [] then 0 else |cuts| - 1
  {
    if |cuts| <= 1 then []
    else Pieces(run, cuts[..|cuts| - 1]) + [Slice(run, cuts[|cuts| - 2], cuts[|cuts| - 1])]
  }

  function Flatten(batches: seq<seq<Line>>): seq<Line> {
    if batches == [] then [] else Flatten(batches[..|batches| - 1]) + batches[|batches| - 1]
  }

  // ---------------------------------------------------------------- lemmas

  lemma {:induction false} BytesSuffix(run: seq<Line>, a: nat, b: nat, c: nat)
    requires a <= b <= c <= |run|
    ensures Bytes(run, b, c) <= Bytes(run, a, c)
  {
    if b < c {
      BytesSuffix(run, a, b, c - 1);
    }
  }

  /** Any stretch of a fitting stretch fits. */
  lemma {:induction false} FitsInside(p: Policy, run: seq<Line>, a: nat, b: nat, c: nat, d: nat)
    requires Fits(p, run, a, d) && a <= b < c <= d
    ensures Fits(p, run, b, c)
    decreases d, c
  {
    if c < d {
      FitsInside(p, run, a, b, c, d - 1);
    } else if b + 1 < c {
      FitsInside(p, run, a, b, c - 1, d);
      BytesSuffix(run, a, b, c);
    }
  }

  lemma {:induction false} GreedyIsLegal(p: Policy, run: seq<Line>, cuts: seq<nat>)
    requires Greedy(p, run, cuts)
    ensures Legal(p, run, cuts)
  {
    if |cuts| > 1 {
      GreedyIsLegal(p, run, cuts[..|cuts| - 1]);
    }
  }

  lemma {:induction false} LegalAt(p: Policy, run: seq<Line>, cuts: seq<nat>, i: nat)
    requires Legal(p, run, cuts) && i < |cuts|
    ensures cuts[0] == 0 && cuts[i] <= |run|
    ensures i < |cuts| - 1 ==> Fits(p, run, cuts[i], cuts[i + 1])
    ensures i < |cuts| - 1 && Greedy(p, run, cuts) ==> Forced(p, run, cuts[i], cuts[i + 1])
  {
    var n := |cuts| - 1;
    if i < n {
      LegalAt(p, run, cuts[..n], i);
      assert cuts[..n][i] == cuts[i] && (i + 1 < n ==> cuts[..n][i + 1] == cuts[i + 1]);
    } else if n > 0 {
      LegalAt(p, run, cuts[..n], 0);
    }
  }

  /** A forced piece that starts no earlier ends no earlier. */
  lemma ForcedEndsLater(p: Policy, run: seq<Line>, a: nat, b: nat, c: nat, d: nat)
    requires Fits(p, run, a, b) && Forced(p, run, a, b) && Fits(p, run, c, d) && c <= a
    ensures d <= b
  {
    if b < d {
      FitsBounds(p, run, a, b);
      FitsBounds(p, run, c, d);
      FitsInside(p, run, c, a, b + 1, d);
    }
  }

  lemma FitsBounds(p: Policy, run: seq<Line>, a: nat, b: nat)
    requires Fits(p, run, a, b)
    ensures a < b <= |run|
  {
  }

  lemma PieceBefore(p: Policy, run: seq<Line>, cuts: seq<nat>, i: nat)
    requires Legal(p, run, cuts) && 0 < i < |cuts|
    ensures Fits(p, run, cuts[i - 1], cuts[i])
    ensures Greedy(p, run, cuts) ==> Forced(p, run, cuts[i - 1], cuts[i])
  {
    LegalAt(p, run, cuts, i - 1);
  }

  /** What two cuttings are, position by position, at one place. */
  lemma AheadOnce(p: Policy, run: seq<Line>, g: seq<nat>, o: seq<nat>, i: nat)
    requires Greedy(p, run, g) && Legal(p, run, g) && Legal(p, run, o) && 0 < i < |g| && i < |o| && g[i - 1] >= o[i - 1]
    ensures g[i] >= o[i]
  {
    PieceBefore(p, run, g, i);
    PieceBefore(p, run, o, i);
    ForcedEndsLater(p, run, g[i - 1], g[i], o[i - 1], o[i]);
  }

  lemma FirstCut(p: Policy, run: seq<Line>, cuts: seq<nat>)
    requires Legal(p, run, cuts)
    ensures cuts != [] && cuts[0] == 0
  {
    LegalAt(p, run, cuts, 0);
  }

  /** Greedy cutting stays ahead of any other legal cutting. */
  lemma {:induction false} GreedyAhead(p: Policy, run: seq<Line>, g: seq<nat>, o: seq<nat>, i: nat)
    requires Greedy(p, run, g) && Legal(p, run, g) && Legal(p, run, o) && i < |g| && i < |o|
    ensures g[i] >= o[i]
  {
    if i > 0 {
      GreedyAhead(p, run, g, o, i - 1);
      AheadOnce(p, run, g, o, i);
    } else {
      FirstCut(p, run, o);
    }
  }

  /** No legal cutting of the run needs fewer sub-batches. */
  lemma GreedyIsFewest(p: Policy, run: seq<Line>, g: seq<nat>, o: seq<nat>)
    requires Greedy(p, run, g) && Complete(run, g) && Legal(p, run, o) && Complete(run, o)
    ensures |g| <= |o|
  {
    var i := |o| - 1;
    GreedyIsLegal(p, run, g);
    if i < |g| {
      GreedyAhead(p, run, g, o, i);
      LegalAt(p, run, g, i);
    }
  }

  /** There is only one way to cut greedily. */
  lemma GreedyIsUnique(p: Policy, run: seq<Line>, g: seq<nat>, h: seq<nat>)
    requires Greedy(p, run, g) && Complete(run, g) && Greedy(p, run, h) && Complete(run, h)
    ensures g == h
  {
    GreedyIsLegal(p, run, g);
    GreedyIsLegal(p, run, h);
    GreedyIsFewest(p, run, g, h);
    GreedyIsFewest(p, run, h, g);
    forall i | 0 <= i < |g| ensures g[i] == h[i] {
      GreedyAhead(p, run, g, h, i);
      GreedyAhead(p, run, h, g, i);
    }
  }

  lemma FlattenAppend(bs: seq<seq<Line>>, b: seq<Line>)
    ensures Flatten(bs + [b]) == Flatten(bs) + b
  {
    assert (bs + [b])[..|bs|] == bs;
  }

  lemma LegalFront(p: Policy, run: seq<Line>, cuts: seq<nat>)
    requires Legal(p, run, cuts) && |cuts| > 1
    ensures Legal(p, run, cuts[..|cuts| - 1]) && cuts[|cuts| - 2] < Last(cuts) <= |run|
    ensures Pieces(run, cuts) == Pieces(run, cuts[..|cuts| - 1]) + [run[cuts[|cuts| - 2]..Last(cuts)]]
  {
  }

  /** The pieces put together are the run up to the last cut. */
  lemma {:induction false} PiecesJoin(p: Policy, run: seq<Line>, cuts: seq<nat>)
    requires Legal(p, run, cuts)
    ensures Last(cuts) <= |run| && Flatten(Pieces(run, cuts)) == run[..Last(cuts)]
  {
    if |cuts| > 1 {
      var front, a, b := cuts[..|cuts| - 1], cuts[|cuts| - 2], Last(cuts);
      LegalFront(p, run, cuts);
      PiecesJoin(p, run, front);
      FlattenAppend(Pieces(run, front), run[a..b]);
      assert run[..a] + run[a..b] == run[..b];
    } else {
      assert Pieces(run, cuts) == [] && run[..0] == [];
    }
  }

  lemma {:induction false} PieceAt(run: seq<Line>, cuts: seq<nat>, i: nat)
    requires i < |cuts| - 1
    ensures Pieces(run, cuts)[i] == Slice(run, cuts[i], cuts[i + 1])
  {
    var front := cuts[..|cuts| - 1];
    if i < |cuts| - 2 {
      PieceAt(run, front, i);
      assert front[i] == cuts[i] && front[i + 1] == cuts[i + 1];
    }
  }

  /**
   * What greedy sub-batches look like: none empty, none over the line limit, any of two or more lines
   * within the budget at its last line and so within 1 MiB; and all but the last were cut because one
   * of the two limits was reached.
   */
  lemma GreedyPieces(p: Policy, run: seq<Line>, cuts: seq<nat>, i: nat)
    requires Greedy(p, run, cuts) && i < |cuts| - 1
    ensures cuts[i] < cuts[i + 1] <= |run|
    ensures var b, first, last := Pieces(run, cuts)[i], cuts[i], cuts[i + 1];
            && b == run[first..last] && 1 <= |b| <= 4_096
            && (|b| >= 2 ==> Bytes(run, first, last) <= Budget(Watch(p, run, last - 1)) <= BUDGET_MAX)
            && (last < |run| ==>
                  |b| == 4_096 || Bytes(run, first, last) + |run[last]| > Budget(Watch(p, run, last)))
  {
    PieceAt(run, cuts, i);
    GreedyIsLegal(p, run, cuts);
    LegalAt(p, run, cuts, i);
  }

  // ------------------------------------------------------------ the splitter

  /** Takes whole sub-batches; those numbered in `refused` fail. */
  class Sink {
    var batches: seq<seq<Line>>
    const refused: set<nat>

    constructor (refused: set<nat>)
      ensures batches == [] && this.refused == refused
    {
      batches := [];
      this.refused := refused;
    }

    method SinkBatch(b: seq<Line>) returns (ok: bool)
      modifies this
      ensures ok <==> |old(batches)| !in refused
      ensures batches == if ok then old(batches) + [b] else old(batches)
    {
      ok := |batches| !in refused;
      if ok {
        batches := batches + [b];
      }
    }
  }

  function NextOf(i: nat, n: nat): (j: nat)
    requires i < n
    ensures j < n
  {
    if i + 1 == n then 0 else i + 1
  }

  method Advance(i: nat, n: nat) returns (j: nat)
    requires i < n
    ensures j == NextOf(i, n)
  {
    j := (i + 1) % n;
    if i + 1 == n {
      ModUnique(n, 1, 0, n);
    } else {
      ModUnique(i + 1, 0, i + 1, n);
    }
  }

  /** The index after `k` steps round a table of `n` entries. */
  function Turn(start: nat, k: nat, n: nat): (i: nat)
    requires start < n
    ensures i < n
  {
    if k == 0 then start else NextOf(Turn(start, k - 1, n), n)
  }

  /** The run of samples from a start index, going round. */
  function Cyclic(samples: seq<Line>, start: nat, count: nat): (run: seq<Line>)
    requires start < |samples|
    ensures |run| == count
  {
    if count == 0 then []
    else Cyclic(samples, start, count - 1) + [samples[Turn(start, count - 1, |samples|)]]
  }

  lemma {:induction false} CyclicAt(samples: seq<Line>, start: nat, count: nat, k: nat)
    requires start < |samples| && k < count
    ensures Cyclic(samples, start, count)[k] == samples[Turn(start, k, |samples|)]
  {
    if k < count - 1 {
      CyclicAt(samples, start, count - 1, k);
    }
  }

  lemma {:induction false} TurnIs(start: nat, k: nat, n: nat)
    requires start < n
    ensures Turn(start, k, n) == (start + k) % n
  {
    if k > 0 {
      TurnIs(start, k - 1, n);
      NextMod(start + k - 1, n);
    } else {
      ModUnique(start, 0, start, n);
    }
  }

  lemma NextMod(x: nat, n: nat)
    requires n > 0
    ensures x % n < n && NextOf(x % n, n) == (x + 1) % n
  {
    var q, r := x / n, x % n;
    assert x == n * q + r;
    if r + 1 < n {
      ModUnique(x + 1, q, r + 1, n);
    } else {
      assert n * (q + 1) == n * q + n;
      ModUnique(x + 1, q + 1, 0, n);
    }
  }

  /** The cuts made so far, when line number `k` is next and lines from the last cut on are held. */
  predicate Progress(p: Policy, run: seq<Line>, cuts: seq<nat>, k: nat) {
    Greedy(p, run, cuts) && Last(cuts) <= k <= |run| && (Last(cuts) < k ==> Fits(p, run, Last(cuts), k))
  }

  /** A flush adds a cut. */
  lemma CutHere(p: Policy, run: seq<Line>, cuts: seq<nat>, k: nat)
    requires Progress(p, run, cuts, k) && Last(cuts) < k && Forced(p, run, Last(cuts), k)
    ensures Progress(p, run, cuts + [k], k)
    ensures Pieces(run, cuts + [k]) == Pieces(run, cuts) + [run[Last(cuts)..k]]
  {
    assert (cuts + [k])[..|cuts|] == cuts;
  }

  /** The splitter between two lines: cuts made, lines held, and what policy and sink have seen. */
  ghost predicate Holding(p: Policy, run: seq<Line>, cuts: seq<nat>, k: nat, batch: seq<Line>, bytes: nat,
                          now: Policy, out: seq<seq<Line>>)
  {
    && Progress(p, run, cuts, k) && batch == run[Last(cuts)..k] && bytes == Bytes(run, Last(cuts), k)
    && now == Watch(p, run, k) && out == Pieces(run, cuts) && (k > 0 ==> batch != [])
  }

  /**
   * Takes in the next line, flushing first if one of the limits asks for it.  A refused flush leaves
   * everything as it was.
   */
  method Take(sink: Sink, policy: BatchSizePolicy, line: Line, batch: seq<Line>, batchBytes: nat,
              ghost p: Policy, ghost run: seq<Line>, ghost cuts: seq<nat>, ghost k: nat,
              ghost before: seq<seq<Line>>, ghost out: seq<seq<Line>>)
    returns (ok: bool, held: seq<Line>, bytes: nat, flushed: nat, ghost cuts': seq<nat>)
    requires k < |run| && line == run[k]
    requires Holding(p, run, cuts, k, batch, batchBytes, policy.View(), out) && sink.batches == before + out
    modifies sink, policy
    ensures ok ==> Holding(p, run, cuts', k + 1, held, bytes, policy.View(), Pieces(run, cuts'))
    ensures ok ==> sink.batches == before + Pieces(run, cuts') && flushed == Last(cuts') - Last(cuts)
    ensures !ok ==> sink.batches == before + out && policy.View() == old(policy.View())
    ensures !ok ==> Last(cuts) < k && Forced(p, run, Last(cuts), k)
  {
    held, bytes, flushed, cuts' := batch, batchBytes, 0, cuts;
    var budget := policy.BudgetBytes();
    if (batchBytes + |line| > budget && batch != []) || |batch| >= FLUSH_LINES {
      ok := sink.SinkBatch(batch);
      if !ok {
        return;
      }
      CutHere(p, run, cuts, k);
      RegroupEnd(before, out, batch);
      cuts' := cuts + [k];
      flushed, held, bytes := |batch|, [], 0;
    }
    policy.ObserveLine(|line|);
    bytes := bytes + |line|;
    held := held + [line];
    ok := true;
  }

  /** The last flush completes the cutting. */
  lemma CutEnd(p: Policy, run: seq<Line>, cuts: seq<nat>)
    requires Progress(p, run, cuts, |run|) && Last(cuts) < |run|
    ensures Greedy(p, run, cuts + [|run|]) && AllOut(run, cuts + [|run|])
    ensures Pieces(run, cuts + [|run|]) == Pieces(run, cuts) + [run[Last(cuts)..|run|]]
  {
    CutHere(p, run, cuts, |run|);
    GreedyIsLegal(p, run, cuts + [|run|]);
    PiecesJoin(p, run, cuts + [|run|]);
    assert run[..|run|] == run;
  }

  lemma TailFacts(p: Policy, run: seq<Line>, cuts: seq<nat>, batch: seq<Line>, before: seq<seq<Line>>)
    requires Progress(p, run, cuts, |run|) && batch == run[Last(cuts)..|run|] && batch != []
    ensures Last(cuts) < |run| && |batch| == |run| - Last(cuts)
    ensures Greedy(p, run, cuts + [|run|]) && AllOut(run, cuts + [|run|])
    ensures before + Pieces(run, cuts) + [batch] == before + Pieces(run, cuts + [|run|])
  {
    CutEnd(p, run, cuts);
    RegroupEnd(before, Pieces(run, cuts), batch);
  }

  /** Flushes what is left at the end of a unit. */
  method Tail(sink: Sink, batch: seq<Line>, ghost p: Policy, ghost run: seq<Line>, ghost cuts: seq<nat>,
              ghost bytes: nat, ghost now: Policy, ghost before: seq<seq<Line>>)
    returns (ok: bool, ghost cuts': seq<nat>)
    requires Holding(p, run, cuts, |run|, batch, bytes, now, Pieces(run, cuts)) && run != []
    requires sink.batches == before + Pieces(run, cuts)
    modifies sink
    ensures ok ==> Greedy(p, run, cuts') && AllOut(run, cuts') && sink.batches == before + Pieces(run, cuts')
    ensures ok ==> |batch| == |run| - Last(cuts)
    ensures !ok ==> sink.batches == before + Pieces(run, cuts) && Last(cuts) < |run|
  {
    TailFacts(p, run, cuts, batch, before);
    ok := sink.SinkBatch(batch);
    cuts' := if ok then cuts + [|run|] else cuts;
  }

  /** What a unit leaves behind: `taken` lines seen, the first of them out in greedy sub-batches. */
  ghost predicate Delivered(p: Policy, run: seq<Line>, cuts: seq<nat>, taken: nat, now: Policy) {
    Greedy(p, run, cuts) && Last(cuts) <= taken <= |run| && now == Watch(p, run, taken)
  }

  /** The whole run is out. */
  ghost predicate AllOut(run: seq<Line>, cuts: seq<nat>) {
    Complete(run, cuts) && Flatten(Pieces(run, cuts)) == run
  }

  /** Lines were seen that will not be sent: a refused sub-batch, as the greedy cutting has it. */
  ghost predicate Dropped(p: Policy, run: seq<Line>, cuts: seq<nat>, taken: nat) {
    cuts != [] && Last(cuts) < taken && Forced(p, run, Last(cuts), taken)
  }

  /**
   * Sends `unitCnt` samples.  On success the sub-batches are the greedy cutting of the cyclic run and
   * the index has moved past it.  After a sink error, greedy sub-batches of a shorter start of the run
   * are out, and the index has moved past the refused lines: they are not sent again.
   */
  method SendUnitSamples(sink: Sink, samples: seq<Line>, start: nat, unitCnt: nat, policy: BatchSizePolicy)
    returns (sent: Option<nat>, curIdx: nat, ghost cuts: seq<nat>, ghost taken: nat)
    requires unitCnt > 0 ==> start < |samples|
    modifies sink, policy
    ensures unitCnt == 0 ==>
              sent == Some(0) && curIdx == start && sink.batches == old(sink.batches) && policy.View() == old(policy.View())
    ensures unitCnt > 0 ==>
            var run := Cyclic(samples, start, unitCnt);
            && Delivered(old(policy.View()), run, cuts, taken, policy.View())
            && sink.batches == old(sink.batches) + Pieces(run, cuts)
            && curIdx == Turn(start, taken, |samples|)
            && (sent.Some? ==> sent.value == unitCnt == taken && AllOut(run, cuts))
            && (sent.None? ==> Dropped(old(policy.View()), run, cuts, taken))
  {
    if unitCnt == 0 {
      return Some(0), start, [0], 0;
    }
    sent, curIdx, cuts, taken := SendSamples(sink, samples, start, unitCnt, policy);
  }

  /** A unit that is not empty: the loop, then the rest. */
  method SendSamples(sink: Sink, samples: seq<Line>, start: nat, unitCnt: nat, policy: BatchSizePolicy)
    returns (sent: Option<nat>, curIdx: nat, ghost cuts: seq<nat>, ghost taken: nat)
    requires unitCnt > 0 && start < |samples|
    modifies sink, policy
    ensures var run := Cyclic(samples, start, unitCnt);
            && Delivered(old(policy.View()), run, cuts, taken, policy.View())
            && sink.batches == old(sink.batches) + Pieces(run, cuts)
            && curIdx == Turn(start, taken, |samples|)
            && (sent.Some? ==> sent.value == unitCnt == taken && AllOut(run, cuts))
            && (sent.None? ==> Dropped(old(policy.View()), run, cuts, taken))
  {
    ghost var run, p, before := Cyclic(samples, start, unitCnt), policy.View(), sink.batches;
    var ok, count, batch, batchBytes;
    ok, count, batch, batchBytes, curIdx, cuts, taken := SampleLoop(sink, samples, start, unitCnt, policy, run);
    sent := None;
    if ok {
      ghost var more;
      ok, more := Tail(sink, batch, p, run, cuts, batchBytes, policy.View(), before);
      if ok {
        cuts, sent := more, Some(count + |batch|);
      }
    }
  }

  /** Takes in the samples of a unit one by one, until a flush is refused. */
  method SampleLoop(sink: Sink, samples: seq<Line>, start: nat, unitCnt: nat, policy: BatchSizePolicy, ghost run: seq<Line>)
    returns (ok: bool, count: nat, batch: seq<Line>, batchBytes: nat, curIdx: nat, ghost cuts: seq<nat>, ghost taken: nat)
    requires unitCnt > 0 && start < |samples| && run == Cyclic(samples, start, unitCnt)
    modifies sink, policy
    ensures cuts != [] && taken <= unitCnt && curIdx == Turn(start, taken, |samples|)
    ensures sink.batches == old(sink.batches) + Pieces(run, cuts)
    ensures ok ==> taken == unitCnt && count == Last(cuts)
    ensures ok ==> Holding(old(policy.View()), run, cuts, taken, batch, batchBytes, policy.View(), Pieces(run, cuts))
    ensures !ok ==> Delivered(old(policy.View()), run, cuts, taken, policy.View())
    ensures !ok ==> Dropped(old(policy.View()), run, cuts, taken)
  {
    ghost var p, before := policy.View(), sink.batches;
    cuts, taken, curIdx := [0], 0, start;
    count, batch, batchBytes := 0, [], 0;
    for k := 0 to unitCnt
      invariant taken == k && Holding(p, run, cuts, k, batch, batchBytes, policy.View(), Pieces(run, cuts))
      invariant count == Last(cuts) && curIdx == Turn(start, k, |samples|)
      invariant sink.batches == before + Pieces(run, cuts)
    {
      var held, bytes, flushed;
      ghost var more;
      CyclicAt(samples, start, unitCnt, k);
      ok, held, bytes, flushed, more :=
        Take(sink, policy, samples[curIdx], batch, batchBytes, p, run, cuts, k, before, Pieces(run, cuts));
      if !ok {
        return;
      }
      batch, batchBytes, count, cuts := held, bytes, count + flushed, more;
      curIdx := Advance(curIdx, |samples|);
      taken := k + 1;
    }
    ok := true;
  }

  /** The rule indices asked for in turn. */
  function Asked(start: nat, k: nat, n: nat): seq<nat>
    requires start < n
  {
    if k == 0 then [] else Asked(start, k - 1, n) + [Turn(start, k - 1, n)]
  }

  /** The lines of a unit that the generator gets to make. */
  function Yielded(made: seq<Line>, unitCnt: nat): (run: seq<Line>)
    ensures |run| <= unitCnt && run <= made && (|run| < unitCnt ==> run == made)
  {
    if |made| < unitCnt then made else made[..unitCnt]
  }

  /**
   * Sends `unitCnt` lines made by the rules in turn.  `made` are the lines the generator yields before
   * it fails, if it does; `asked` are the rule indices it was asked for.  A generator error drops the
   * lines held, and after a refused flush within the run the line just made is dropped as well.
   */
  method SendUnitRules(sink: Sink, made: seq<Line>, ruleCnt: nat, start: nat, unitCnt: nat, policy: BatchSizePolicy)
    returns (sent: Option<nat>, curIdx: nat, asked: seq<nat>, ghost calls: nat, ghost cuts: seq<nat>, ghost taken: nat)
    requires unitCnt > 0 ==> start < ruleCnt
    modifies sink, policy
    ensures unitCnt == 0 ==>
              && sent == Some(0) && curIdx == start && asked == []
              && sink.batches == old(sink.batches) && policy.View() == old(policy.View())
    ensures unitCnt > 0 ==> asked == Asked(start, calls, ruleCnt)
    ensures unitCnt > 0 ==>
            var run := Yielded(made, unitCnt);
            && Delivered(old(policy.View()), run, cuts, taken, policy.View())
            && sink.batches == old(sink.batches) + Pieces(run, cuts)
            && (sent.Some? ==>
                  && sent.value == unitCnt == taken == calls && curIdx == Turn(start, unitCnt, ruleCnt)
                  && AllOut(run, cuts))
            && (sent.None? ==>
                  && calls == (if taken == unitCnt then taken else taken + 1)
                  && curIdx == Turn(start, if taken < |run| then taken + 1 else taken, ruleCnt)
                  && (taken == |run| < unitCnt || Dropped(old(policy.View()), run, cuts, taken)))
  {
    cuts, taken, curIdx, asked, calls := [0], 0, start, [], 0;
    if unitCnt == 0 {
      return Some(0), curIdx, asked, calls, cuts, taken;
    }
    ghost var run := Yielded(made, unitCnt);
    ghost var p, before := policy.View(), sink.batches;
    var ok, count, held, batchBytes;
    ok, count, held, batchBytes, curIdx, asked, calls, cuts, taken :=
      RuleLoop(sink, made, ruleCnt, start, unitCnt, policy, run);
    sent := None;
    if ok {
      ghost var more;
      ok, more := Tail(sink, held, p, run, cuts, batchBytes, policy.View(), before);
      if ok {
        cuts, sent := more, Some(count + |held|);
      }
    }
  }

  /** Has the lines of a unit made and takes them in, until making one fails or a flush is refused. */
  method RuleLoop(sink: Sink, made: seq<Line>, ruleCnt: nat, start: nat, unitCnt: nat, policy: BatchSizePolicy,
                  ghost run: seq<Line>)
    returns (ok: bool, count: nat, held: seq<Line>, batchBytes: nat, curIdx: nat, asked: seq<nat>,
             ghost calls: nat, ghost cuts: seq<nat>, ghost taken: nat)
    requires unitCnt > 0 && start < ruleCnt && run == Yielded(made, unitCnt)
    modifies sink, policy
    ensures cuts != [] && taken <= |run| && asked == Asked(start, calls, ruleCnt)
    ensures sink.batches == old(sink.batches) + Pieces(run, cuts)
    ensures ok ==> taken == |run| == unitCnt == calls && count == Last(cuts) && curIdx == Turn(start, unitCnt, ruleCnt)
    ensures ok ==> Holding(old(policy.View()), run, cuts, taken, held, batchBytes, policy.View(), Pieces(run, cuts))
    ensures !ok ==> Delivered(old(policy.View()), run, cuts, taken, policy.View())
    ensures !ok ==> calls == taken + 1 && taken < unitCnt
    ensures !ok ==> curIdx == Turn(start, if taken < |run| then taken + 1 else taken, ruleCnt)
    ensures !ok ==> taken == |run| < unitCnt || Dropped(old(policy.View()), run, cuts, taken)
  {
    ghost var p, before := policy.View(), sink.batches;
    cuts, taken, curIdx, asked, calls := [0], 0, start, [], 0;
    count, held, batchBytes := 0, [], 0;
    for k := 0 to unitCnt
      invariant k <= |run| && taken == k && Holding(p, run, cuts, k, held, batchBytes, policy.View(), Pieces(run, cuts))
      invariant count == Last(cuts) && curIdx == Turn(start, k, ruleCnt) && calls == k && asked == Asked(start, k, ruleCnt)
      invariant sink.batches == before + Pieces(run, cuts)
    {
      asked := asked + [curIdx];
      calls := k + 1;
      if k == |made| {
        ok := false;
        return;
      }
      curIdx := Advance(curIdx, ruleCnt);
      var batch, bytes, flushed;
      ghost var more;
      ok, batch, bytes, flushed, more :=
        Take(sink, policy, made[k], held, batchBytes, p, run, cuts, k, before, Pieces(run, cuts));
      if !ok {
        return;
      }
      held, batchBytes, count, cuts := batch, bytes, count + flushed, more;
      taken := k + 1;
    }
    ok := true;
  }
}

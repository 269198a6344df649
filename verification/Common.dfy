/** Small shared vocabulary. */
module Common {
  datatype Option<+T> = None | Some(value: T)

  newtype Byte = x: int | 0 <= x < 256

  const NANOS_PER_SEC: nat := 1_000_000_000
  const U64_RANGE: nat := 0x1_0000_0000_0000_0000

  /** Sum of a sequence of naturals. */
  function Sum(s: seq<nat>): nat {
    if s == [] then 0 else s[0] + Sum(s[1..])
  }

  lemma {:induction false} SumAppend(s: seq<nat>, t: seq<nat>)
    ensures Sum(s + t) == Sum(s) + Sum(t)
  {
    if s == [] {
      assert s + t == t;
    } else {
      assert (s + t)[1..] == s[1..] + t;
      SumAppend(s[1..], t);
    }
  }

  lemma {:induction false} AllZero(s: seq<nat>)
    requires forall i :: 0 <= i < |s| ==> s[i] == 0
    ensures Sum(s) == 0
  {
    if s != [] {
      AllZero(s[1..]);
    }
  }

  /** Replacing one entry moves the sum by the difference of the two entries. */
  lemma {:induction false} SumUpdate(s: seq<nat>, i: nat, v: nat)
    requires i < |s|
    ensures Sum(s[i := v]) == Sum(s) - s[i] + v
    ensures s[i] <= Sum(s)
  {
    if i == 0 {
      assert s[i := v][1..] == s[1..];
    } else {
      assert s[i := v][1..] == s[1..][i - 1 := v];
      SumUpdate(s[1..], i - 1, v);
    }
  }

  /** A set of naturals inside an interval of `n` naturals has at most `n` members. */
  lemma {:induction false} IntervalCardinality(s: set<nat>, lo: nat, n: nat)
    requires forall x :: x in s ==> lo <= x < lo + n
    ensures |s| <= n
  {
    if n > 0 {
      IntervalCardinality(s - {lo + n - 1}, lo, n - 1);
      assert s <= (s - {lo + n - 1}) + {lo + n - 1};
    } else {
      assert forall x :: x !in s;
      assert s == {};
    }
  }

  lemma Regroup<T>(a: seq<T>, x: T, b: seq<T>)
    ensures a + ([x] + b) == a + [x] + b
  {
  }

  lemma RegroupEnd<T>(a: seq<T>, b: seq<T>, x: T)
    ensures a + (b + [x]) == a + b + [x]
  {
  }

  lemma ConsAppend<T>(a: seq<T>, b: seq<T>)
    requires a != []
    ensures a + b == [a[0]] + (a[1..] + b)
  {
  }

  lemma DivMod(x: nat, n: nat)
    requires n > 0
    ensures x == n * (x / n) + x % n && x % n < n
  {
  }

  lemma Distribute(p: nat, a: nat, b: nat)
    ensures p * (a + b) == p * a + p * b
  {
  }

  /** Multiplication by a natural keeps and reflects order. */
  lemma MulMono(p: nat, a: nat, b: nat)
    ensures a <= b ==> p * a <= p * b
    ensures p * a < p * b ==> a < b
  {
    if a <= b {
      assert p * b == p * a + p * (b - a);
    } else {
      assert p * a == p * b + p * (a - b);
    }
  }

  /** Quotient and remainder are unique. */
  lemma ModUnique(x: nat, q: nat, r: nat, n: nat)
    requires x == n * q + r && r < n
    ensures x % n == r
  {
    var q', r' := x / n, x % n;
    assert x == n * q' + r';
    assert n * (q + 1) == n * q + n && n * (q' + 1) == n * q' + n;
    MulMono(n, q, q' + 1);
    MulMono(n, q', q + 1);
  }
}

/**
 * A cache of query results keyed by parameter values.  Each distinct value gets a number on first
 * use, from one of four maps by its type; a tuple of numbers is the key into a least-recently-saved
 * store of fixed capacity.
 */
module QueryCache {
  import opened Common

  datatype IpAddr = V4(bits: nat) | V6(bits: nat)
  datatype Value = Chars(s: string) | Int(i: int) | Ip(addr: IpAddr) | BigUint(n: nat) | Unsupported(tag: nat)

  /** Only the value of a parameter takes part in the key, not its name. */
  datatype Field = Field(name: string, value: Value)
  type Answer = seq<Field>

  predicate Supported(v: Value) { !v.Unsupported? }

  // ----------------------------------------------------- recency-ordered store

  datatype Entry<K, V> = Entry(key: K, value: V)

  function Drop<K(==), V>(es: seq<Entry<K, V>>, k: K): seq<Entry<K, V>> {
    if es == [] then []
    else if es[0].key == k then Drop(es[1..], k)
    else [es[0]] + Drop(es[1..], k)
  }

  function Lookup<K(==), V>(es: seq<Entry<K, V>>, k: K): Option<V> {
    if es == [] then None
    else if es[0].key == k then Some(es[0].value)
    else Lookup(es[1..], k)
  }

  function Take<T>(s: seq<T>, n: nat): seq<T> {
    if n == 0 || s == [] then [] else [s[0]] + Take(s[1..], n - 1)
  }

  /** Saving moves a key to the front and may push the oldest one out. */
  function Put<K(==), V>(es: seq<Entry<K, V>>, k: K, v: V, cap: nat): seq<Entry<K, V>> {
    Take([Entry(k, v)] + Drop(es, k), cap)
  }

  // ------------------------------------------------------------ value numbers

  function Digit(d: nat): char requires d < 10 { ['0', '1', '2', '3', '4', '5', '6', '7', '8', '9'][d] }

  function Decimal(n: nat): (s: string)
    ensures s != []
  {
    if n < 10 then [Digit(n)] else Decimal(n / 10) + [Digit(n % 10)]
  }

  /** The decimal text of a number determines it, so it can stand in for it as a key. */
  lemma {:induction false} DecimalInjective(m: nat, n: nat)
    requires Decimal(m) == Decimal(n)
    ensures m == n
  {
    var s, t := Decimal(m), Decimal(n);
    assert s[|s| - 1] == Digit(m % 10) && t[|t| - 1] == Digit(n % 10);
    if m >= 10 && n >= 10 {
      assert s[..|s| - 1] == Decimal(m / 10) && t[..|t| - 1] == Decimal(n / 10);
      DecimalInjective(m / 10, n / 10);
    }
  }

  datatype Index = Index(str: map<string, nat>, i64: map<int, nat>, ip: map<IpAddr, nat>, big: map<string, nat>, num: nat)

  function Find<K>(m: map<K, nat>, k: K): Option<nat> { if k in m then Some(m[k]) else None }

  function IdxOf(ix: Index, v: Value): Option<nat> {
    match v
    case Chars(s) => Find(ix.str, s)
    case Int(i) => Find(ix.i64, i)
    case Ip(a) => Find(ix.ip, a)
    case BigUint(n) => Find(ix.big, Decimal(n))
    case Unsupported(_) => None
  }

  /** Numbers a supported value that has none yet. */
  function WithIdx(ix: Index, v: Value): Index {
    if !Supported(v) || IdxOf(ix, v).Some? then ix
    else
      var t := ix.(num := ix.num + 1);
      match v
      case Chars(s) => t.(str := ix.str[s := t.num])
      case Int(i) => t.(i64 := ix.i64[i := t.num])
      case Ip(a) => t.(ip := ix.ip[a := t.num])
      case BigUint(n) => t.(big := ix.big[Decimal(n) := t.num])
      case Unsupported(_) => t
  }

  /** Different values, of the same or of different types, have different numbers. */
  ghost predicate Injective(ix: Index) {
    && (forall v :: IdxOf(ix, v).Some? ==> 1 <= IdxOf(ix, v).value <= ix.num)
    && (forall v, w :: IdxOf(ix, v).Some? && IdxOf(ix, v) == IdxOf(ix, w) ==> v == w)
  }

  lemma WithIdxAdds(ix: Index, v: Value, w: Value)
    ensures w == v ==> (IdxOf(WithIdx(ix, v), w).Some? <==> Supported(v))
    ensures w != v || IdxOf(ix, v).Some? ==> IdxOf(WithIdx(ix, v), w) == IdxOf(ix, w)
    ensures Supported(v) && IdxOf(ix, v).None? ==> IdxOf(WithIdx(ix, v), v) == Some(ix.num + 1)
    ensures WithIdx(ix, v).num == if Supported(v) && IdxOf(ix, v).None? then ix.num + 1 else ix.num
  {
    if v.BigUint? && w.BigUint? && Decimal(v.n) == Decimal(w.n) {
      DecimalInjective(v.n, w.n);
    }
  }

  lemma WithIdxInjective(ix: Index, v: Value)
    requires Injective(ix)
    ensures Injective(WithIdx(ix, v))
  {
    var t := WithIdx(ix, v);
    forall w ensures IdxOf(t, w).Some? ==> 1 <= IdxOf(t, w).value <= t.num {
      WithIdxAdds(ix, v, w);
    }
    forall w, x | IdxOf(t, w).Some? && IdxOf(t, w) == IdxOf(t, x) ensures w == x {
      WithIdxAdds(ix, v, w);
      WithIdxAdds(ix, v, x);
    }
  }

  /** All values of a tuple have numbers. */
  predicate Indexed(ix: Index, p: seq<Value>) { forall i :: 0 <= i < |p| ==> IdxOf(ix, p[i]).Some? }

  function KeyOf(ix: Index, p: seq<Value>): (key: seq<nat>)
    requires Indexed(ix, p)
    ensures |key| == |p| && forall i :: 0 <= i < |p| ==> Some(key[i]) == IdxOf(ix, p[i])
  {
    seq(|p|, i requires 0 <= i < |p| => IdxOf(ix, p[i]).value)
  }

  lemma KeyInjective(ix: Index, p: seq<Value>, q: seq<Value>)
    requires Injective(ix) && Indexed(ix, p) && Indexed(ix, q)
    ensures KeyOf(ix, p) == KeyOf(ix, q) <==> p == q
  {
    if KeyOf(ix, p) == KeyOf(ix, q) {
      assert |p| == |q|;
      forall i | 0 <= i < |p| ensures p[i] == q[i] {
        assert KeyOf(ix, p)[i] == KeyOf(ix, q)[i];
      }
    }
  }

  // ------------------------------------------- store over numbers and over values

  type Save = Entry<seq<Value>, Answer>

  predicate AllIndexed(ix: Index, r: seq<Save>) { forall i :: 0 <= i < |r| ==> Indexed(ix, r[i].key) }

  /** The store as the cache holds it, numbers in place of values. */
  function Coded(ix: Index, r: seq<Save>): (es: seq<Entry<seq<nat>, Answer>>)
    requires AllIndexed(ix, r)
    ensures |es| == |r| && forall i :: 0 <= i < |r| ==> es[i] == Entry(KeyOf(ix, r[i].key), r[i].value)
  {
    seq(|r|, i requires 0 <= i < |r| => Entry(KeyOf(ix, r[i].key), r[i].value))
  }

  lemma CodedTail(ix: Index, r: seq<Save>)
    requires AllIndexed(ix, r) && r != []
    ensures Coded(ix, r)[1..] == Coded(ix, r[1..])
  {
  }

  lemma CodedCons(ix: Index, s: Save, r: seq<Save>)
    requires Indexed(ix, s.key) && AllIndexed(ix, r)
    ensures AllIndexed(ix, [s] + r) && Coded(ix, [s] + r) == [Entry(KeyOf(ix, s.key), s.value)] + Coded(ix, r)
  {
  }

  lemma {:induction false} CodedDrop(ix: Index, r: seq<Save>, p: seq<Value>)
    requires Injective(ix) && AllIndexed(ix, r) && Indexed(ix, p)
    ensures AllIndexed(ix, Drop(r, p))
    ensures Drop(Coded(ix, r), KeyOf(ix, p)) == Coded(ix, Drop(r, p))
  {
    if r != [] {
      var rest := Drop(r[1..], p);
      CodedDrop(ix, r[1..], p);
      CodedTail(ix, r);
      assert Indexed(ix, r[0].key);
      KeyInjective(ix, r[0].key, p);
      if r[0].key != p {
        CodedCons(ix, r[0], rest);
        assert Drop(r, p) == [r[0]] + rest;
      }
    }
  }

  lemma {:induction false} CodedTake(ix: Index, r: seq<Save>, n: nat)
    requires AllIndexed(ix, r)
    ensures AllIndexed(ix, Take(r, n)) && Take(Coded(ix, r), n) == Coded(ix, Take(r, n))
  {
    if n > 0 && r != [] {
      CodedTake(ix, r[1..], n - 1);
      CodedTail(ix, r);
    }
  }

  lemma CodedPut(ix: Index, r: seq<Save>, p: seq<Value>, v: Answer, cap: nat)
    requires Injective(ix) && AllIndexed(ix, r) && Indexed(ix, p)
    ensures AllIndexed(ix, Put(r, p, v, cap))
    ensures Put(Coded(ix, r), KeyOf(ix, p), v, cap) == Coded(ix, Put(r, p, v, cap))
  {
    CodedDrop(ix, r, p);
    var full := [Entry(p, v)] + Drop(r, p);
    assert Coded(ix, full) == [Entry(KeyOf(ix, p), v)] + Coded(ix, Drop(r, p));
    CodedTake(ix, full, cap);
  }

  lemma {:induction false} CodedLookup(ix: Index, r: seq<Save>, p: seq<Value>)
    requires Injective(ix) && AllIndexed(ix, r) && Indexed(ix, p)
    ensures Lookup(Coded(ix, r), KeyOf(ix, p)) == Lookup(r, p)
  {
    if r != [] {
      CodedLookup(ix, r[1..], p);
      CodedTail(ix, r);
      KeyInjective(ix, r[0].key, p);
    }
  }

  /** A tuple with an unnumbered value is in no store. */
  lemma {:induction false} UnindexedAbsent(ix: Index, r: seq<Save>, p: seq<Value>)
    requires AllIndexed(ix, r) && !Indexed(ix, p)
    ensures Lookup(r, p) == None
  {
    if r != [] {
      assert Indexed(ix, r[0].key);
      UnindexedAbsent(ix, r[1..], p);
    }
  }

  /** New numbers leave the keys in use alone. */
  lemma CodedStable(ix: Index, v: Value, r: seq<Save>)
    requires AllIndexed(ix, r)
    ensures AllIndexed(WithIdx(ix, v), r) && Coded(WithIdx(ix, v), r) == Coded(ix, r)
  {
    forall i | 0 <= i < |r|
      ensures Indexed(WithIdx(ix, v), r[i].key) && KeyOf(WithIdx(ix, v), r[i].key) == KeyOf(ix, r[i].key)
    {
      KeyStable(ix, v, r[i].key);
    }
  }

  lemma KeyStable(ix: Index, v: Value, p: seq<Value>)
    requires Indexed(ix, p)
    ensures Indexed(WithIdx(ix, v), p) && KeyOf(WithIdx(ix, v), p) == KeyOf(ix, p)
  {
    forall i | 0 <= i < |p| ensures IdxOf(WithIdx(ix, v), p[i]) == IdxOf(ix, p[i]) {
      WithIdxAdds(ix, v, p[i]);
    }
  }

  // -------------------------------------------------------------- history

  /** The store after a history of saves. */
  function Replay(h: seq<Save>, cap: nat): seq<Save> {
    if h == [] then [] else Put(Replay(h[..|h| - 1], cap), h[|h| - 1].key, h[|h| - 1].value, cap)
  }

  /** All distinct tuples of a history with their latest answers, latest first. */
  function Recent(h: seq<Save>): seq<Save> {
    if h == [] then [] else [h[|h| - 1]] + Drop(Recent(h[..|h| - 1]), h[|h| - 1].key)
  }

  function Keys(r: seq<Save>): set<seq<Value>> {
    if r == [] then {} else {r[0].key} + Keys(r[1..])
  }

  predicate KeysOnce(r: seq<Save>) {
    r == [] || (r[0].key !in Keys(r[1..]) && KeysOnce(r[1..]))
  }

  lemma {:induction false} DropKeys(r: seq<Save>, p: seq<Value>)
    ensures Keys(Drop(r, p)) == Keys(r) - {p}
    ensures KeysOnce(r) ==> KeysOnce(Drop(r, p))
    ensures p !in Keys(r) ==> Drop(r, p) == r
  {
    if r != [] {
      DropKeys(r[1..], p);
    }
  }

  lemma {:induction false} RecentOnce(h: seq<Save>)
    ensures KeysOnce(Recent(h))
  {
    if h != [] {
      var s, before := h[|h| - 1], Recent(h[..|h| - 1]);
      RecentOnce(h[..|h| - 1]);
      DropKeys(before, s.key);
      assert ([s] + Drop(before, s.key))[1..] == Drop(before, s.key);
    }
  }

  lemma {:induction false} TakeKeys(r: seq<Save>, n: nat)
    ensures Keys(Take(r, n)) <= Keys(r)
  {
    if n > 0 && r != [] {
      TakeKeys(r[1..], n - 1);
    }
  }

  lemma {:induction false} TakeTake(r: seq<Save>, n: nat)
    ensures Take(Take(r, n), n) == Take(r, n)
  {
    if n > 0 && r != [] {
      TakeTake(r[1..], n - 1);
    }
  }

  /** Forgetting beyond the capacity before a save or after it makes no difference. */
  lemma {:induction false} DropTake(r: seq<Save>, p: seq<Value>, n: nat)
    requires KeysOnce(r)
    ensures Take(Drop(Take(r, n + 1), p), n) == Take(Drop(r, p), n)
  {
    if r != [] {
      var rest := r[1..];
      assert Take(r, n + 1) == [r[0]] + Take(rest, n);
      assert ([r[0]] + Take(rest, n))[1..] == Take(rest, n);
      if r[0].key == p {
        DropKeys(rest, p);
        TakeKeys(rest, n);
        DropKeys(Take(rest, n), p);
        TakeTake(rest, n);
      } else if n > 0 {
        DropTake(rest, p, n - 1);
        assert ([r[0]] + Drop(Take(rest, n), p))[1..] == Drop(Take(rest, n), p);
        assert ([r[0]] + Drop(rest, p))[1..] == Drop(rest, p);
      }
    }
  }

  lemma PutTake(r: seq<Save>, p: seq<Value>, v: Answer, cap: nat)
    requires KeysOnce(r)
    ensures Put(Take(r, cap), p, v, cap) == Put(r, p, v, cap)
  {
    if cap > 0 {
      DropTake(r, p, cap - 1);
      assert ([Entry(p, v)] + Drop(Take(r, cap), p))[1..] == Drop(Take(r, cap), p);
      assert ([Entry(p, v)] + Drop(r, p))[1..] == Drop(r, p);
    }
  }

  /** The bounded store is the start of the unbounded recency list. */
  lemma {:induction false} ReplayIsRecent(h: seq<Save>, cap: nat)
    ensures Replay(h, cap) == Take(Recent(h), cap)
  {
    if h != [] {
      var front, s := h[..|h| - 1], h[|h| - 1];
      ReplayIsRecent(front, cap);
      RecentOnce(front);
      PutTake(Recent(front), s.key, s.value, cap);
      assert Entry(s.key, s.value) == s;
    }
  }

  /** Keys in front of the first entry for a key. */
  function Before(r: seq<Save>, p: seq<Value>): set<seq<Value>> {
    if r == [] || r[0].key == p then {} else {r[0].key} + Before(r[1..], p)
  }

  lemma {:induction false} DropOther(r: seq<Save>, p: seq<Value>, q: seq<Value>)
    requires p != q
    ensures Before(Drop(r, q), p) == Before(r, p) - {q} && Lookup(Drop(r, q), p) == Lookup(r, p)
  {
    if r != [] {
      DropOther(r[1..], p, q);
      assert ([r[0]] + Drop(r[1..], q))[1..] == Drop(r[1..], q);
    }
  }

  lemma {:induction false} BeforeKeys(r: seq<Save>, p: seq<Value>)
    ensures Before(r, p) <= Keys(r)
  {
    if r != [] {
      BeforeKeys(r[1..], p);
    }
  }

  /** In the first `n` entries a key is found exactly if fewer than `n` keys stand in front of it. */
  lemma {:induction false} LookupTake(r: seq<Save>, p: seq<Value>, n: nat)
    requires KeysOnce(r)
    ensures Lookup(Take(r, n), p) == if |Before(r, p)| < n then Lookup(r, p) else None
  {
    if r != [] && r[0].key != p {
      BeforeKeys(r[1..], p);
      assert |Before(r, p)| == |Before(r[1..], p)| + 1;
      if n > 0 {
        LookupTake(r[1..], p, n - 1);
        assert ([r[0]] + Take(r[1..], n - 1))[1..] == Take(r[1..], n - 1);
      }
    }
  }

  /** The answer of the latest save of a tuple, and the tuples saved since. */
  function Latest(h: seq<Save>, p: seq<Value>): Option<Answer> {
    if h == [] then None
    else if h[|h| - 1].key == p then Some(h[|h| - 1].value)
    else Latest(h[..|h| - 1], p)
  }

  function Since(h: seq<Save>, p: seq<Value>): set<seq<Value>> {
    if h == [] || h[|h| - 1].key == p then {} else {h[|h| - 1].key} + Since(h[..|h| - 1], p)
  }

  lemma {:induction false} RecentLookup(h: seq<Save>, p: seq<Value>)
    ensures Lookup(Recent(h), p) == Latest(h, p) && Before(Recent(h), p) == Since(h, p)
  {
    if h != [] {
      var front, s := h[..|h| - 1], h[|h| - 1];
      RecentLookup(front, p);
      assert ([s] + Drop(Recent(front), s.key))[1..] == Drop(Recent(front), s.key);
      if s.key != p {
        DropOther(Recent(front), p, s.key);
      }
    }
  }

  /**
   * What the cache answers, in terms of its history alone: the answer of the latest save of the tuple,
   * as long as fewer than `cap` other tuples have been saved since.
   */
  lemma AnswerIs(h: seq<Save>, cap: nat, p: seq<Value>)
    ensures Lookup(Replay(h, cap), p) == if |Since(h, p)| < cap then Latest(h, p) else None
  {
    ReplayIsRecent(h, cap);
    RecentOnce(h);
    LookupTake(Recent(h), p, cap);
    RecentLookup(h, p);
  }

  /** Save number `i` of the history is the latest one for its tuple. */
  predicate LastSave(h: seq<Save>, i: int) {
    0 <= i < |h| && forall j :: i < j < |h| ==> h[j].key != h[i].key
  }

  /** Distinct tuples among the saves from number `i` on. */
  function KeysFrom(h: seq<Save>, i: int): set<seq<Value>> { set j | 0 <= i <= j < |h| :: h[j].key }

  lemma {:induction false} LatestIs(h: seq<Save>, i: nat)
    requires LastSave(h, i)
    ensures Latest(h, h[i].key) == Some(h[i].value) && Since(h, h[i].key) == KeysFrom(h, i + 1)
  {
    var n := |h| - 1;
    if i < n {
      assert forall j :: 0 <= j < n ==> h[..n][j] == h[j];
      assert h[n].key != h[i].key;
      LatestIs(h[..n], i);
      assert KeysFrom(h, i + 1) == KeysFrom(h[..n], i + 1) + {h[n].key};
    }
  }

  lemma {:induction false} LatestExists(h: seq<Save>, p: seq<Value>) returns (i: nat)
    requires Latest(h, p).Some?
    ensures LastSave(h, i) && h[i].key == p
  {
    var n := |h| - 1;
    if h[n].key == p {
      i := n;
    } else {
      i := LatestExists(h[..n], p);
      assert forall j :: 0 <= j < n ==> h[..n][j] == h[j];
    }
  }

  /**
   * The same in plain terms: a tuple has the answer `v` exactly if its latest save gave `v` and it is
   * among the `cap` most recently saved distinct tuples.
   */
  lemma AnswerIff(h: seq<Save>, cap: nat, p: seq<Value>, v: Answer)
    ensures Lookup(Replay(h, cap), p) == Some(v) <==>
              exists i :: LastSave(h, i) && h[i] == Entry(p, v) && |KeysFrom(h, i + 1)| < cap
  {
    AnswerIs(h, cap, p);
    if Latest(h, p).Some? {
      var i := LatestExists(h, p);
      LatestIs(h, i);
      assert h[i] == Entry(p, h[i].value);
    }
    if i :| LastSave(h, i) && h[i] == Entry(p, v) && |KeysFrom(h, i + 1)| < cap {
      LatestIs(h, i);
    }
  }

  // ----------------------------------------------------------------- the cache

  function Values(params: seq<Field>): (p: seq<Value>)
    ensures |p| == |params| && forall i :: 0 <= i < |p| ==> p[i] == params[i].value
  {
    seq(|params|, i requires 0 <= i < |params| => params[i].value)
  }

  predicate AllSupported(p: seq<Value>) { forall i :: 0 <= i < |p| ==> Supported(p[i]) }

  class FieldQueryCache {
    var strIdx: map<string, nat>
    var i64Idx: map<int, nat>
    var ipIdx: map<IpAddr, nat>
    var biguintIdx: map<string, nat>
    var idxNum: nat
    var cacheData: seq<Entry<seq<nat>, Answer>>
    const capacity: nat
    /** Saves of supported tuples so far. */
    ghost var history: seq<Save>

    function Numbers(): Index
      reads this
    {
      Index(strIdx, i64Idx, ipIdx, biguintIdx, idxNum)
    }

    ghost predicate Valid()
      reads this
    {
      && capacity > 0 && Injective(Numbers())
      && AllIndexed(Numbers(), Replay(history, capacity))
      && cacheData == Coded(Numbers(), Replay(history, capacity))
    }

    constructor (size: nat)
      ensures Valid() && history == [] && capacity == (if size == 0 then 1 else size)
    {
      strIdx, i64Idx, ipIdx, biguintIdx, idxNum := map[], map[], map[], map[], 0;
      cacheData := [];
      capacity := if size == 0 then 1 else size;
      history := [];
    }

    method GetIdx(v: Value) returns (r: Option<nat>)
      ensures r == IdxOf(Numbers(), v)
    {
      match v
      case Chars(s) => r := if s in strIdx then Some(strIdx[s]) else None;
      case Int(i) => r := if i in i64Idx then Some(i64Idx[i]) else None;
      case Ip(a) => r := if a in ipIdx then Some(ipIdx[a]) else None;
      case BigUint(n) =>
        var key := Decimal(n);
        r := if key in biguintIdx then Some(biguintIdx[key]) else None;
      case Unsupported(_) => r := None;
    }

    method TryUpIdx(v: Value) returns (r: Option<nat>)
      modifies this`strIdx, this`i64Idx, this`ipIdx, this`biguintIdx, this`idxNum
      ensures Numbers() == WithIdx(old(Numbers()), v) && r == IdxOf(Numbers(), v)
    {
      r := GetIdx(v);
      if r.None? && Supported(v) {
        idxNum := idxNum + 1;
        match v {
          case Chars(s) => strIdx := strIdx[s := idxNum];
          case Int(i) => i64Idx := i64Idx[i := idxNum];
          case Ip(a) => ipIdx := ipIdx[a := idxNum];
          case BigUint(n) => biguintIdx := biguintIdx[Decimal(n) := idxNum];
          case Unsupported(_) =>
        }
        r := Some(idxNum);
      }
    }

    /** Numbers every value, also when another one turns out not to be supported. */
    method Save(params: seq<Field>, result: Answer)
      requires Valid() && 1 <= |params| <= 6
      modifies this
      ensures Valid()
      ensures history == if AllSupported(Values(params)) then old(history) + [Entry(Values(params), result)] else old(history)
    {
      var key: seq<nat> := [];
      var ok := true;
      ghost var p := Values(params);
      for i := 0 to |params|
        invariant Valid() && history == old(history) && ok == AllSupported(p[..i])
        invariant ok ==> Indexed(Numbers(), p[..i]) && key == KeyOf(Numbers(), p[..i])
      {
        ghost var before := Numbers();
        WithIdxInjective(before, p[i]);
        CodedStable(before, p[i], Replay(history, capacity));
        var idx := TryUpIdx(params[i].value);
        WithIdxAdds(before, p[i], p[i]);
        if ok {
          KeyStable(before, p[i], p[..i]);
        }
        assert p[..i + 1] == p[..i] + [p[i]];
        if idx.Some? {
          key := key + [idx.value];
        } else {
          assert !Supported(p[..i + 1][i]);
          ok := false;
        }
      }
      assert p[..|params|] == p;
      if ok {
        CodedPut(Numbers(), Replay(history, capacity), p, result, capacity);
        cacheData := Put(cacheData, key, result, capacity);
        history := history + [Entry(p, result)];
        assert history[..|history| - 1] == old(history);
      }
    }

    /** Reading leaves everything as it is, the recency order included. */
    method Fetch(params: seq<Field>) returns (r: Option<Answer>)
      requires Valid() && 1 <= |params| <= 6
      ensures r == Lookup(Replay(history, capacity), Values(params))
    {
      var key: seq<nat> := [];
      ghost var p := Values(params);
      for i := 0 to |params|
        invariant Indexed(Numbers(), p[..i]) && key == KeyOf(Numbers(), p[..i])
      {
        var idx := GetIdx(params[i].value);
        if idx.None? {
          assert IdxOf(Numbers(), p[i]).None?;
          UnindexedAbsent(Numbers(), Replay(history, capacity), p);
          return None;
        }
        assert p[..i + 1] == p[..i] + [p[i]];
        key := key + [idx.value];
      }
      assert p[..|params|] == p;
      CodedLookup(Numbers(), Replay(history, capacity), p);
      r := Lookup(cacheData, key);
    }
  }
}

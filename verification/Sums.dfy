/**
 Sums over finite maps, and the addition of `Bond` and `Unbond` deltas: maps of
 token amounts added key by key.
 */
module Sums {
  import opened Options
  import opened Timelines

  /** A key's value, zero when it is missing. */
  function ValueAt<K>(m: map<K, int>, k: K): int {
    if k in m then m[k] else 0
  }

  function AmountAt<K>(m: map<K, nat>, k: K): nat {
    if k in m then m[k] else 0
  }

  ghost function SumKeys<K>(s: set<K>, m: map<K, int>): int {
    if s == {} then 0
    else
      var k :| k in s;
      ValueAt(m, k) + SumKeys(s - {k}, m)
  }

  /** The sum of a map's values. */
  ghost function SumOf<K>(m: map<K, int>): int {
    SumKeys(m.Keys, m)
  }

  lemma {:induction false} KeysSplit<K>(s: set<K>, m: map<K, int>, k: K)
    requires k in s
    ensures SumKeys(s, m) == ValueAt(m, k) + SumKeys(s - {k}, m)
    decreases s
  {
    var j :| j in s && SumKeys(s, m) == ValueAt(m, j) + SumKeys(s - {j}, m);
    if j != k {
      KeysSplit(s - {j}, m, k);
      KeysSplit(s - {k}, m, j);
      assert s - {j} - {k} == s - {k} - {j};
    }
  }

  lemma {:induction false} KeysFrame<K>(s: set<K>, m: map<K, int>, n: map<K, int>)
    requires forall k :: k in s ==> ValueAt(m, k) == ValueAt(n, k)
    ensures SumKeys(s, m) == SumKeys(s, n)
    decreases s
  {
    if s != {} {
      var k :| k in s;
      KeysSplit(s, m, k);
      KeysSplit(s, n, k);
      KeysFrame(s - {k}, m, n);
    }
  }

  lemma SumSplit<K>(m: map<K, int>, k: K)
    requires k in m
    ensures SumOf(m) == m[k] + SumOf(m - {k})
  {
    KeysSplit(m.Keys, m, k);
    KeysFrame(m.Keys - {k}, m, m - {k});
    assert (m - {k}).Keys == m.Keys - {k};
  }

  /** Changing one value changes the sum by the difference. */
  lemma SumUpdate<K>(m: map<K, int>, k: K, v: int)
    ensures SumOf(m[k := v]) == SumOf(m) - ValueAt(m, k) + v
  {
    var u := m[k := v];
    SumSplit(u, k);
    assert u - {k} == m - {k};
    if k in m {
      SumSplit(m, k);
    } else {
      assert m - {k} == m;
    }
  }

  lemma SumRemove<K>(m: map<K, int>, k: K)
    ensures SumOf(m - {k}) == SumOf(m) - ValueAt(m, k)
  {
    if k in m {
      SumSplit(m, k);
    } else {
      assert m - {k} == m;
    }
  }

  lemma {:induction false} SumNonNegative<K>(m: map<K, int>)
    requires forall k :: k in m ==> m[k] >= 0
    ensures SumOf(m) >= 0
    ensures forall k :: k in m ==> m[k] <= SumOf(m)
    decreases |m|
  {
    if m != map[] {
      forall k | k in m ensures 0 <= m[k] <= SumOf(m) {
        SumSplit(m, k);
        SumNonNegative(m - {k});
      }
      var k :| k in m;
      assert m[k] <= SumOf(m);
    }
  }

  lemma {:induction false} SumLess<K>(m: map<K, int>, n: map<K, int>)
    requires forall k :: k in n ==> n[k] >= 0
    requires forall k :: k in m ==> k in n && m[k] <= n[k]
    ensures SumOf(m) <= SumOf(n)
    decreases |m|
  {
    if m == map[] {
      SumNonNegative(n);
    } else {
      var k :| k in m;
      SumSplit(m, k);
      SumSplit(n, k);
      SumLess(m - {k}, n - {k});
    }
  }

  lemma {:induction false} SumKeysAdd<K>(s: set<K>, a: map<K, int>, b: map<K, int>, c: map<K, int>)
    requires forall k :: k in s ==> ValueAt(c, k) == ValueAt(a, k) + ValueAt(b, k)
    ensures SumKeys(s, c) == SumKeys(s, a) + SumKeys(s, b)
    decreases s
  {
    if s != {} {
      var k :| k in s;
      KeysSplit(s, a, k);
      KeysSplit(s, b, k);
      KeysSplit(s, c, k);
      SumKeysAdd(s - {k}, a, b, c);
    }
  }

  /** Keys without a value do not count. */
  lemma {:induction false} SumKeysMore<K>(s: set<K>, m: map<K, int>)
    requires m.Keys <= s
    ensures SumKeys(s, m) == SumOf(m)
    decreases s
  {
    if forall k :: k in s ==> k in m {
      assert s == m.Keys;
    } else {
      var k :| k in s && k !in m;
      KeysSplit(s, m, k);
      SumKeysMore(s - {k}, m);
    }
  }

  /** The sum of values that add up key by key. */
  lemma SumPointwise<K>(a: map<K, int>, b: map<K, int>, c: map<K, int>)
    requires forall k :: ValueAt(c, k) == ValueAt(a, k) + ValueAt(b, k)
    ensures SumOf(c) == SumOf(a) + SumOf(b)
  {
    hide SumKeys, SumOf;
    var s := a.Keys + b.Keys + c.Keys;
    SumKeysAdd(s, a, b, c);
    SumKeysMore(s, a);
    SumKeysMore(s, b);
    SumKeysMore(s, c);
  }

  // ---------- maps of token amounts ----------

  /** `Bond` and `Unbond` addition: amounts under one key are added. */
  function AddAmounts<K>(a: map<K, nat>, b: map<K, nat>): map<K, nat> {
    map k | k in a.Keys + b.Keys :: AmountAt(a, k) + AmountAt(b, k)
  }

  lemma AddAmountsLaws<K(!new)>()
    ensures Associative(AddAmounts<K>)
    ensures Commutative(AddAmounts<K>)
  {
    forall a: map<K, nat>, b: map<K, nat>, c: map<K, nat>
      ensures AddAmounts(AddAmounts(a, b), c) == AddAmounts(a, AddAmounts(b, c))
    {
    }
    forall a: map<K, nat>, b: map<K, nat> ensures AddAmounts(a, b) == AddAmounts(b, a) {
    }
  }

  lemma AddAmountsNothing<K>(a: map<K, nat>)
    ensures AddAmounts(a, map[]) == a
  {
  }

  lemma AddAmountsInsert<K>(a: map<K, nat>, b: map<K, nat>, k: K, v: nat)
    requires k !in b
    ensures AddAmounts(a, b[k := v]) == AddAmounts(a, b)[k := AmountAt(a, k) + v]
    ensures AmountAt(AddAmounts(a, b), k) == AmountAt(a, k)
  {
    var l, r := AddAmounts(a, b[k := v]), AddAmounts(a, b)[k := AmountAt(a, k) + v];
    assert l.Keys == r.Keys;
    forall j | j in l ensures l[j] == r[j] {
    }
  }

  lemma SumAddAmountsInsert<K>(a: map<K, nat>, b: map<K, nat>, k: K, v: nat)
    requires k !in b
    ensures SumOf(AddAmounts(a, b[k := v])) == SumOf(AddAmounts(a, b)) + v
  {
    AddAmountsInsert(a, b, k, v);
    SumUpdate(AddAmounts(a, b), k, AmountAt(a, k) + v);
  }

  /** No tokens are lost or made by an addition of deltas. */
  lemma {:induction false} SumAddAmounts<K>(a: map<K, nat>, b: map<K, nat>)
    ensures SumOf(AddAmounts(a, b)) == SumOf(a) + SumOf(b)
    decreases |b|
  {
    if b == map[] {
      AddAmountsNothing(a);
    } else {
      var k :| k in b;
      var c := b - {k};
      SumSplit(b, k);
      SumAddAmounts(a, c);
      assert b == c[k := b[k]];
      SumAddAmountsInsert(a, c, k, b[k]);
    }
  }

  function Total<K>(m: Option<map<K, nat>>): map<K, nat> {
    m.UnwrapOr(map[])
  }

  /** The in-place merge of one delta map into another, in any order of keys. */
  method Merge<K>(a: map<K, nat>, b: map<K, nat>) returns (r: map<K, nat>)
    ensures r == AddAmounts(a, b)
  {
    r := a;
    var rest := b.Keys;
    while rest != {}
      invariant rest <= b.Keys
      invariant r.Keys == a.Keys + (b.Keys - rest)
      invariant forall k :: k in r ==> r[k] == AmountAt(a, k) + if k in rest then 0 else AmountAt(b, k)
      decreases rest
    {
      var k :| k in rest;
      if k in r {
        r := r[k := r[k] + b[k]];
      } else {
        r := r[k := b[k]];
      }
      rest := rest - {k};
    }
  }

  /** The fold of a delta map's amounts, in any order of keys. */
  method SumDeltas<K>(m: map<K, nat>) returns (sum: nat)
    ensures sum == SumOf(m)
  {
    sum := 0;
    var rest := m;
    while rest != map[]
      invariant sum + SumOf(rest) == SumOf(m)
      decreases |rest|
    {
      var k :| k in rest;
      SumSplit(rest, k);
      sum := sum + rest[k];
      rest := rest - {k};
    }
  }
}

/**
 Epoched containers of token amounts by key, as bonds and unbonds are: what each
 operation does to all the amounts of a container, and where the keys lie.
 */
module DeltaMaps {
  import opened Options
  import opened Timelines
  import opened Sums
  import opened Ledger
  import opened StakeViews

  // ---------- all amounts of a container ----------

  /** All the amounts of a container, whichever epoch they belong to. */
  function AllOf<K(!new)>(t: Timeline<map<K, nat>>, off: nat): map<K, nat> {
    Total(Get(AddAmounts<K>, t, t.lastUpdate + off))
  }

  lemma AllOfAt<K(!new)>(t: Timeline<map<K, nat>>, off: nat, epoch: nat)
    requires Fits(t, off) && t.lastUpdate + off <= epoch
    ensures Total(Get(AddAmounts<K>, t, epoch)) == AllOf(t, off)
  {
    hide Get, AddAmounts;
    PastWindow(AddAmounts<K>, t, off, t.lastUpdate + off, epoch);
  }

  lemma PlusAmounts<K(!new)>(a: Option<map<K, nat>>, b: Option<map<K, nat>>)
    ensures Total(Plus(AddAmounts<K>, a, b)) == AddAmounts(Total(a), Total(b))
  {
    AddAmountsNothing(Total(a));
    AddAmountsNothing(Total(b));
  }

  /** An addition adds its value to the whole. */
  lemma AllOfAdd<K(!new)>(t: Timeline<map<K, nat>>, value: map<K, nat>, current: nat, i: nat, off: nat)
    requires Fits(t, off) && i <= off && t.lastUpdate <= current
    ensures AllOf(AddAt(AddAmounts<K>, t, value, current, i, off), off) == AddAmounts(AllOf(t, off), value)
  {
    hide Get, AddAt, AddAmounts;
    AddAmountsLaws<K>();
    AddAtShape(AddAmounts<K>, t, value, current, i, off);
    AddAtGet(AddAmounts<K>, t, value, current, i, off, current + off);
    AllOfAt(t, off, current + off);
    PlusAmounts(Get(AddAmounts<K>, t, current + off), Some(value));
  }

  lemma AllOfInit<K(!new)>(value: map<K, nat>, current: nat, i: nat, off: nat)
    requires i <= off
    ensures AllOf(InitAt(value, current, i), off) == value
  {
    hide Get, AddAmounts;
    InitAtGet(AddAmounts<K>, value, current, i, current + off);
  }

  lemma AllOfAdvance<K(!new)>(t: Timeline<map<K, nat>>, current: nat, off: nat)
    requires Fits(t, off) && t.lastUpdate <= current
    ensures AllOf(Advance(AddAmounts<K>, t, current, off), off) == AllOf(t, off)
  {
    hide Get, AddAmounts, Advance;
    AddAmountsLaws<K>();
    AdvanceShape(AddAmounts<K>, t, current, off);
    AdvanceGet(AddAmounts<K>, t, current, off, current + off);
    AllOfAt(t, off, current + off);
  }

  /** Deleting the head takes out exactly what was due, and only that. */
  lemma AllOfDelete<K(!new)>(t: Timeline<map<K, nat>>, current: nat, off: nat, epoch: nat)
    requires Fits(t, off) && t.lastUpdate <= current <= epoch
    ensures var r := DeleteHead(AddAmounts<K>, t, current, off);
      Total(Get(AddAmounts<K>, t, epoch)) ==
        AddAmounts(Total(Get(AddAmounts<K>, t, current)), Total(Get(AddAmounts<K>, r, epoch)))
  {
    hide Get, AddAmounts, DeleteHead;
    AddAmountsLaws<K>();
    DeleteHeadGet(AddAmounts<K>, t, current, off, epoch);
    var r := DeleteHead(AddAmounts<K>, t, current, off);
    PlusAmounts(Get(AddAmounts<K>, t, current), Get(AddAmounts<K>, r, epoch));
  }

  // ---------- where keys lie ----------

  /** Positive amounts whose keys belong to an epoch, or to it and those before. */
  ghost predicate Placed<K(!new)>(m: map<K, nat>, rank: K -> nat, epoch: nat, head: bool) {
    forall k :: k in m ==> m[k] > 0 && (if head then rank(k) <= epoch else rank(k) == epoch)
  }

  /** Amounts lie under their own epoch, the one that `rank` gives, or in the head
      once that epoch has come. */
  ghost predicate Shaped<K(!new)>(t: Timeline<map<K, nat>>, rank: K -> nat) {
    forall x :: t.lastUpdate <= x ==> Placed(Total(DeltaAt(t, x)), rank, x, x == t.lastUpdate)
  }

  lemma PlacedAdd<K(!new)>(a: map<K, nat>, b: map<K, nat>, rank: K -> nat, epoch: nat, head: bool)
    requires Placed(a, rank, epoch, head) && Placed(b, rank, epoch, head)
    ensures Placed(AddAmounts(a, b), rank, epoch, head)
  {
  }

  lemma {:induction false} ShapedGet<K(!new)>(t: Timeline<map<K, nat>>, rank: K -> nat, epoch: nat)
    requires Shaped(t, rank) && t.lastUpdate <= epoch
    ensures Placed(Total(Get(AddAmounts<K>, t, epoch)), rank, epoch, true)
    decreases epoch
  {
    hide AddAmounts, DeltaAt;
    assert Placed(Total(DeltaAt(t, epoch)), rank, epoch, epoch == t.lastUpdate);
    if epoch > t.lastUpdate {
      ShapedGet(t, rank, epoch - 1);
      PlusAmounts(Get(AddAmounts<K>, t, epoch - 1), DeltaAt(t, epoch));
      PlacedAdd(Total(Get(AddAmounts<K>, t, epoch - 1)), Total(DeltaAt(t, epoch)), rank, epoch, true);
    }
  }

  lemma ShapedAdvance<K(!new)>(t: Timeline<map<K, nat>>, rank: K -> nat, current: nat, off: nat)
    requires Shaped(t, rank) && Fits(t, off) && t.lastUpdate <= current
    ensures Shaped(Advance(AddAmounts<K>, t, current, off), rank)
  {
    hide Get, AddAmounts, Advance, DeltaAt, Placed;
    var r := Advance(AddAmounts<K>, t, current, off);
    AdvanceShape(AddAmounts<K>, t, current, off);
    AddAmountsLaws<K>();
    forall x | r.lastUpdate <= x ensures Placed(Total(DeltaAt(r, x)), rank, x, x == r.lastUpdate) {
      if x == current {
        AdvanceHead(AddAmounts<K>, t, current, off);
        ShapedGet(t, rank, current);
      } else {
        AdvanceTail(AddAmounts<K>, t, current, off, x);
      }
    }
  }

  lemma ShapedAdd<K(!new)>(t: Timeline<map<K, nat>>, rank: K -> nat, value: map<K, nat>, current: nat, i: nat, off: nat)
    requires Shaped(t, rank) && Fits(t, off) && t.lastUpdate <= current && i <= off
    requires Placed(value, rank, current + i, false)
    ensures Shaped(AddAt(AddAmounts<K>, t, value, current, i, off), rank)
  {
    hide Get, AddAmounts, Advance, DeltaAt, AddAt;
    var u := Advance(AddAmounts<K>, t, current, off);
    var r := AddAt(AddAmounts<K>, t, value, current, i, off);
    AdvanceShape(AddAmounts<K>, t, current, off);
    ShapedAdvance(t, rank, current, off);
    AddAtShape(AddAmounts<K>, t, value, current, i, off);
    forall x | r.lastUpdate <= x ensures Placed(Total(DeltaAt(r, x)), rank, x, x == r.lastUpdate) {
      AddAtDelta(AddAmounts<K>, t, value, current, i, off, x);
      assert Placed(Total(DeltaAt(u, x)), rank, x, x == u.lastUpdate);
      if x == current + i {
        PlusAmounts(DeltaAt(u, x), Some(value));
        PlacedAdd(Total(DeltaAt(u, x)), value, rank, x, x == current);
      }
    }
  }

  lemma ShapedInit<K(!new)>(rank: K -> nat, value: map<K, nat>, current: nat, i: nat)
    requires Placed(value, rank, current + i, i == 0)
    ensures Shaped(InitAt(value, current, i), rank)
  {
  }

  lemma ShapedDelete<K(!new)>(t: Timeline<map<K, nat>>, rank: K -> nat, current: nat, off: nat)
    requires Shaped(t, rank) && Fits(t, off) && t.lastUpdate <= current
    ensures Shaped(DeleteHead(AddAmounts<K>, t, current, off), rank)
  {
    hide Get, AddAmounts, DeltaAt, DeleteHead;
    var r := DeleteHead(AddAmounts<K>, t, current, off);
    DeleteHeadDelta(AddAmounts<K>, t, current, off, current);
    forall x | r.lastUpdate <= x ensures Placed(Total(DeltaAt(r, x)), rank, x, x == r.lastUpdate) {
      DeleteHeadDelta(AddAmounts<K>, t, current, off, x);
      assert Placed(Total(DeltaAt(t, x)), rank, x, x == t.lastUpdate);
    }
  }

  // ---------- no empty entries ----------

  /** Every entry holds some amount. */
  ghost predicate FilledLine<K(!new)>(t: Timeline<map<K, nat>>) {
    forall x :: DeltaAt(t, x).Some? ==> DeltaAt(t, x).value != map[]
  }

  lemma SomethingAdded<K(!new)>(a: Option<map<K, nat>>, b: Option<map<K, nat>>)
    requires (a.Some? && a.value != map[]) || (b.Some? && b.value != map[])
    ensures Plus(AddAmounts<K>, a, b).Some? && Plus(AddAmounts<K>, a, b).value != map[]
  {
    if a.Some? && b.Some? {
      assert AddAmounts(a.value, b.value).Keys == a.value.Keys + b.value.Keys;
    }
  }

  lemma {:induction false} FilledGet<K(!new)>(t: Timeline<map<K, nat>>, epoch: nat)
    requires FilledLine(t)
    ensures Get(AddAmounts<K>, t, epoch).Some? ==> Get(AddAmounts<K>, t, epoch).value != map[]
    decreases epoch
  {
    hide AddAmounts, DeltaAt;
    if epoch > t.lastUpdate {
      FilledGet(t, epoch - 1);
      var a, b := Get(AddAmounts<K>, t, epoch - 1), DeltaAt(t, epoch);
      if a.Some? || b.Some? {
        SomethingAdded(a, b);
      }
    }
  }

  lemma FilledAdvance<K(!new)>(t: Timeline<map<K, nat>>, current: nat, off: nat, epoch: nat)
    requires FilledLine(t) && Fits(t, off) && t.lastUpdate <= current <= epoch
    ensures var u := Advance(AddAmounts<K>, t, current, off);
      DeltaAt(u, epoch).Some? ==> DeltaAt(u, epoch).value != map[]
  {
    hide AddAmounts, DeltaAt, Advance, Get;
    AddAmountsLaws<K>();
    if epoch == current {
      AdvanceHead(AddAmounts<K>, t, current, off);
      FilledGet(t, current);
    } else {
      AdvanceTail(AddAmounts<K>, t, current, off, epoch);
    }
  }

  /** An addition of some amounts leaves no empty entry, if there is none but
      perhaps where it adds. */
  lemma FilledAdd<K(!new)>(t: Timeline<map<K, nat>>, value: map<K, nat>, current: nat, i: nat, off: nat)
    requires Fits(t, off) && i <= off && value != map[]
    requires forall x :: x != current + i && DeltaAt(Advance(AddAmounts<K>, t, current, off), x).Some? ==>
      DeltaAt(Advance(AddAmounts<K>, t, current, off), x).value != map[]
    ensures FilledLine(AddAt(AddAmounts<K>, t, value, current, i, off))
  {
    hide AddAmounts, DeltaAt, Advance, AddAt;
    var r := AddAt(AddAmounts<K>, t, value, current, i, off);
    forall x: nat | DeltaAt(r, x).Some? ensures DeltaAt(r, x).value != map[] {
      AddAtDelta(AddAmounts<K>, t, value, current, i, off, x);
      if x == current + i {
        SomethingAdded(DeltaAt(Advance(AddAmounts<K>, t, current, off), x), Some(value));
      }
    }
  }

  lemma FilledDelete<K(!new)>(t: Timeline<map<K, nat>>, current: nat, off: nat)
    requires FilledLine(t) && Fits(t, off) && t.lastUpdate <= current
    ensures FilledLine(DeleteHead(AddAmounts<K>, t, current, off))
  {
    hide AddAmounts, DeltaAt, DeleteHead, Advance;
    var r := DeleteHead(AddAmounts<K>, t, current, off);
    forall x: nat | DeltaAt(r, x).Some? ensures DeltaAt(r, x).value != map[] {
      DeleteHeadDelta(AddAmounts<K>, t, current, off, current);
      if x < current {
        NoEntryBefore(r, x);
      } else {
        DeleteHeadDelta(AddAmounts<K>, t, current, off, x);
      }
    }
  }

  lemma NoEntryBefore<T>(t: Timeline<T>, epoch: nat)
    requires epoch < t.lastUpdate
    ensures DeltaAt(t, epoch) == None
  {
  }

  // ---------- a part of the amounts ----------

  function Keep<K>(m: map<K, nat>, p: K -> bool): map<K, nat> {
    map k | k in m && p(k) :: m[k]
  }

  lemma KeepAdd<K>(a: map<K, nat>, b: map<K, nat>, p: K -> bool)
    ensures Keep(AddAmounts(a, b), p) == AddAmounts(Keep(a, p), Keep(b, p))
  {
  }

  lemma SumKeepAdd<K>(a: map<K, nat>, b: map<K, nat>, p: K -> bool)
    ensures SumOf(Keep(AddAmounts(a, b), p)) == SumOf(Keep(a, p)) + SumOf(Keep(b, p))
  {
    hide AddAmounts, Keep;
    KeepAdd(a, b, p);
    SumAddAmounts(Keep(a, p), Keep(b, p));
  }

  lemma KeepAll<K>(m: map<K, nat>, p: K -> bool)
    requires forall k :: k in m ==> p(k)
    ensures Keep(m, p) == m
  {
  }

  lemma KeepNone<K>(m: map<K, nat>, p: K -> bool)
    requires forall k :: k in m ==> !p(k)
    ensures Keep(m, p) == map[]
  {
  }

  lemma SumZeroEmpty<K>(m: map<K, nat>)
    requires SumOf(m) == 0 && forall k :: k in m ==> m[k] > 0
    ensures m == map[]
  {
    if m != map[] {
      var k :| k in m;
      SumNonNegative(m);
    }
  }

  // ---------- taking from a bond ----------

  lemma LeftOverAdds(bond: Option<Bond>, want: nat, taken: Bond)
    requires TakesFrom(bond, want, taken)
    ensures Total(bond) == AddAmounts(Total(LeftOver(bond, taken)), taken)
  {
    if bond.Some? {
      var l := Total(LeftOver(bond, taken));
      assert bond.value.Keys == l.Keys + taken.Keys;
    } else {
      assert taken == map[];
    }
  }

  lemma AddAmountsSwap<K(!new)>(a: map<K, nat>, b: map<K, nat>, c: map<K, nat>)
    ensures AddAmounts(AddAmounts(a, b), c) == AddAmounts(AddAmounts(a, c), b)
    ensures AddAmounts(AddAmounts(a, b), c) == AddAmounts(a, AddAmounts(b, c))
  {
    hide AddAmounts;
    AddAmountsLaws<K>();
    var add := AddAmounts<K>;
    PlusAssociates(add, Some(a), Some(b), Some(c));
    PlusSwaps(add, Some(a), Some(b), Some(c));
  }

  lemma AddAmountsExchange<K(!new)>(a: map<K, nat>, b: map<K, nat>, c: map<K, nat>, d: map<K, nat>)
    ensures AddAmounts(AddAmounts(a, b), AddAmounts(c, d)) == AddAmounts(AddAmounts(a, c), AddAmounts(b, d))
  {
    hide AddAmounts;
    AddAmountsSwap(AddAmounts(a, b), c, d);
    AddAmountsSwap(a, b, c);
    AddAmountsSwap(AddAmounts(a, c), b, d);
  }

  /** What is left and what was taken make up the bond. */
  lemma {:induction false} LeftOversAdd(data: seq<Option<Bond>>, want: nat, taken: seq<Bond>)
    requires Takes(data, want, taken)
    ensures Total(Fold(AddAmounts<nat>, data)) ==
      AddAmounts(Total(Fold(AddAmounts<nat>, LeftOvers(data, taken))), TakenInAll(taken))
    decreases |data|
  {
    hide AddAmounts, LeftOver, SumOf;
    if data == [] {
      AddAmountsNothing<nat>(map[]);
    } else {
      var last := |data| - 1;
      var rest := want - Min(want, SumOf(Total(data[last])));
      LeftOversAdd(data[..last], rest, taken[..last]);
      LeftOverAdds(data[last], want, taken[last]);
      var left := LeftOvers(data, taken);
      assert left[..last] == LeftOvers(data[..last], taken[..last]);
      PlusAmounts(Fold(AddAmounts<nat>, data[..last]), data[last]);
      PlusAmounts(Fold(AddAmounts<nat>, left[..last]), left[last]);
      AddAmountsExchange(Total(Fold(AddAmounts<nat>, left[..last])), TakenInAll(taken[..last]), Total(left[last]),
        taken[last]);
    }
  }

  /** What was taken is what was wanted, or all there was. */
  lemma {:induction false} TakenSum(data: seq<Option<Bond>>, want: nat, taken: seq<Bond>)
    requires Takes(data, want, taken)
    ensures SumOf(TakenInAll(taken)) == Min(want, SumOf(Total(Fold(AddAmounts<nat>, data))))
    decreases |data|
  {
    hide AddAmounts, SumOf;
    if data == [] {
      assert TakenInAll(taken) == map[] && Total(Fold(AddAmounts<nat>, data)) == map[];
      SumNonNegative<nat>(map[]);
      SumOfNothing<nat>();
    } else {
      var last := |data| - 1;
      var rest := want - Min(want, SumOf(Total(data[last])));
      TakenSum(data[..last], rest, taken[..last]);
      PlusAmounts(Fold(AddAmounts<nat>, data[..last]), data[last]);
      SumAddAmounts(Total(Fold(AddAmounts<nat>, data[..last])), Total(data[last]));
      SumAddAmounts(TakenInAll(taken[..last]), taken[last]);
      SumNonNegative(Total(data[last]));
      SumNonNegative(Total(Fold(AddAmounts<nat>, data[..last])));
    }
  }

  lemma SumOfNothing<K>()
    ensures SumOf<K>(map[]) == 0
  {
  }

  lemma EndingSplit(taken: Bond, end: nat, k: nat)
    requires k in taken
    ensures (k, end) in Ending(taken, end) && Ending(taken, end)[(k, end)] == taken[k]
    ensures Ending(taken, end) - {(k, end)} == Ending(taken - {k}, end)
  {
  }

  lemma {:induction false} SumEnding(taken: Bond, end: nat)
    ensures SumOf(Ending(taken, end)) == SumOf(taken)
    decreases |taken|
  {
    hide SumOf;
    SumOfNothing<nat>();
    SumOfNothing<(nat, nat)>();
    if taken == map[] {
      assert Ending(taken, end) == map[];
    } else {
      var k :| k in taken;
      SumSplit(taken, k);
      SumEnding(taken - {k}, end);
      EndingSplit(taken, end, k);
      SumSplit(Ending(taken, end), (k, end));
    }
  }
}

/**
 What a reported bond or unbond contributes when its validator was slashed: the
 check goes through the entries of both states, and what it finds is the worth of
 the amounts by which they differ.
 */
module Contributions {
  import opened Options
  import opened Timelines
  import opened Sums
  import opened Params
  import opened ValidatorSets
  import opened Ledger
  import opened StakeViews
  import opened DeltaMaps
  import opened BondInvariant
  import opened Validation
  import opened ValidationSound

  /** By how much amounts differ, where they do. */
  ghost function Gap<K>(a: map<K, nat>, b: map<K, nat>): map<K, int> {
    map k | k in a.Keys + b.Keys && AmountAt(b, k) != AmountAt(a, k) :: AmountAt(b, k) - AmountAt(a, k)
  }

  /** The amounts of a container up to an epoch. */
  ghost function AllBy<K(!new)>(t: Timeline<map<K, nat>>, epoch: nat): map<K, nat> {
    if epoch < t.lastUpdate then map[] else Total(Get(AddAmounts<K>, t, epoch))
  }

  lemma AddDisjoint<K>(a: map<K, nat>, b: map<K, nat>)
    requires a.Keys !! b.Keys
    ensures AddAmounts(a, b) == a + b
  {
  }

  /** Each entry adds keys of its own. */
  lemma AllByStep<K(!new)>(t: Timeline<map<K, nat>>, rank: K -> nat, epoch: nat)
    requires Shaped(t, rank) && epoch > 0
    ensures AllBy(t, epoch) == AllBy(t, epoch - 1) + Total(DeltaAt(t, epoch))
    ensures AllBy(t, epoch - 1).Keys !! Total(DeltaAt(t, epoch)).Keys
    ensures forall k :: k in AllBy(t, epoch - 1) ==> rank(k) < epoch
    ensures Positive(AllBy(t, epoch - 1)) && Positive(Total(DeltaAt(t, epoch)))
  {
    hide AddAmounts, DeltaAt, Shaped;
    EntryRanks(t, rank, epoch);
    EntryPositive(t, rank, epoch);
    if epoch < t.lastUpdate {
      NoEntryBefore(t, epoch);
    } else if epoch > t.lastUpdate {
      ShapedGet(t, rank, epoch - 1);
      PlusAmounts(Get(AddAmounts<K>, t, epoch - 1), DeltaAt(t, epoch));
      AddDisjoint(AllBy(t, epoch - 1), Total(DeltaAt(t, epoch)));
    }
  }

  lemma EntryPositive<K(!new)>(t: Timeline<map<K, nat>>, rank: K -> nat, epoch: nat)
    requires Shaped(t, rank)
    ensures Positive(Total(DeltaAt(t, epoch)))
  {
    hide DeltaAt;
    if epoch < t.lastUpdate {
      NoEntryBefore(t, epoch);
    } else {
      assert Placed(Total(DeltaAt(t, epoch)), rank, epoch, epoch == t.lastUpdate);
    }
  }

  lemma FirstBy<K(!new)>(t: Timeline<map<K, nat>>, epoch: nat)
    requires epoch <= t.lastUpdate
    ensures AllBy(t, epoch) == Total(DeltaAt(t, epoch))
  {
    if epoch < t.lastUpdate {
      NoEntryBefore(t, epoch);
    }
  }

  /** Two maps with the same value under every key. */
  ghost predicate SameAt<K>(l: map<K, int>, r: map<K, int>, k: K) {
    (k in l <==> k in r) && (k in l && k in r ==> l[k] == r[k])
  }

  lemma SameEverywhere<K(!new)>(l: map<K, int>, r: map<K, int>)
    requires forall k :: SameAt(l, r, k)
    ensures l == r
  {
    forall k ensures k in l <==> k in r {
      assert SameAt(l, r, k);
    }
    forall k | k in l ensures l[k] == r[k] {
      assert SameAt(l, r, k);
    }
  }

  ghost predicate GapAt<K>(m: map<K, int>, k: K, x: nat, y: nat) {
    (k in m <==> x != y) && (k in m ==> m[k] == y - x)
  }

  lemma GapHas<K>(a: map<K, nat>, b: map<K, nat>, k: K)
    ensures GapAt(Gap(a, b), k, AmountAt(a, k), AmountAt(b, k))
  {
  }

  lemma VisitHas<K>(d: map<K, int>, a: map<K, nat>, b: map<K, nat>, k: K, x: nat, y: nat)
    requires GapAt(d, k, x, y) && Positive(a) && Positive(b)
    requires k in a ==> x == 0 && y == 0
    requires k in b ==> y == 0
    ensures GapAt(AddDropping(d + Negated(a), b), k, x + AmountAt(a, k), y + AmountAt(b, k))
  {
  }

  lemma MergedAmounts<K>(p: map<K, nat>, a: map<K, nat>, k: K)
    requires p.Keys !! a.Keys
    ensures AmountAt(p + a, k) == AmountAt(p, k) + AmountAt(a, k)
  {
  }

  /** One more entry of each container goes into the differences. */
  lemma GapVisit<K(!new)>(p: map<K, nat>, q: map<K, nat>, a: map<K, nat>, b: map<K, nat>)
    requires Positive(a) && Positive(b)
    requires p.Keys !! a.Keys && q.Keys !! a.Keys && q.Keys !! b.Keys
    ensures AddDropping(Gap(p, q) + Negated(a), b) == Gap(p + a, q + b)
  {
    hide Positive, Gap, AddDropping, Negated;
    var l, r := AddDropping(Gap(p, q) + Negated(a), b), Gap(p + a, q + b);
    forall k ensures SameAt(l, r, k) {
      GapHas(p, q, k);
      GapHas(p + a, q + b, k);
      VisitHas(Gap(p, q), a, b, k, AmountAt(p, k), AmountAt(q, k));
      MergedAmounts(p, a, k);
      MergedAmounts(q, b, k);
    }
    SameEverywhere(l, r);
  }

  /** The differences are what the amounts after and before differ by, key by key. */
  lemma {:induction false} DifferencesAre<K(!new)>(pre: Timeline<map<K, nat>>, post: Timeline<map<K, nat>>,
        rank: K -> nat, epoch: nat)
    requires Shaped(pre, rank) && Shaped(post, rank) && pre.lastUpdate <= post.lastUpdate && pre.lastUpdate <= epoch
    ensures Differences(pre, post, epoch) == Gap(AllBy(pre, epoch), AllBy(post, epoch))
    decreases epoch
  {
    hide DeltaAt, Shaped, AllBy, Gap, AddDropping, Negated, Positive;
    var a, b := Total(DeltaAt(pre, epoch)), Total(DeltaAt(post, epoch));
    if epoch == pre.lastUpdate {
      FirstBy(pre, epoch);
      FirstBy(post, epoch);
      EntryPositive(pre, rank, epoch);
      EntryPositive(post, rank, epoch);
      FirstVisit(a, b);
    } else {
      DifferencesAre(pre, post, rank, epoch - 1);
      AllByStep(pre, rank, epoch);
      AllByStep(post, rank, epoch);
      EntryRanks(pre, rank, epoch);
      GapVisit(AllBy(pre, epoch - 1), AllBy(post, epoch - 1), a, b);
    }
  }

  lemma FirstVisit<K(!new)>(a: map<K, nat>, b: map<K, nat>)
    requires Positive(a) && Positive(b)
    ensures AddDropping(map[] + Negated(a), b) == Gap(a, b)
  {
    GapVisit<K>(map[], map[], a, b);
    assert Gap<K>(map[], map[]) == map[];
    assert map[] + a == a && map[] + b == b;
  }

  // ---------- worth ----------

  /** A lack is worth as much as the amount itself, with the other sign. */
  ghost predicate Odd<K(!new)>(worth: Worth<K>) {
    forall k, x: int {:trigger worth(k, x)} :: worth(k, -x) == -worth(k, x)
  }

  lemma SignedOdd(rates: seq<Rate>, x: int)
    ensures AfterSignedSlashes(rates, -x) == -AfterSignedSlashes(rates, x)
  {
    hide AfterSlashes;
    SignedSlashes(rates, if x >= 0 then x else -x);
  }

  lemma WorthsOdd(slashes: seq<Slash>)
    ensures Odd(BondWorth(slashes)) && Odd(UnbondWorth(slashes))
  {
    hide RatesFrom, RatesWithin, AfterSignedSlashes;
    forall k: nat, x: int ensures BondWorth(slashes)(k, -x) == -BondWorth(slashes)(k, x) {
      SignedOdd(RatesFrom(slashes, k), x);
    }
    forall k: (nat, nat), x: int ensures UnbondWorth(slashes)(k, -x) == -UnbondWorth(slashes)(k, x) {
      SignedOdd(RatesWithin(slashes, k.0, k.1), x);
    }
  }

  lemma WorthNegated<K(!new)>(m: map<K, nat>, worth: Worth<K>)
    requires Odd(worth)
    ensures SumOf(Valued(Negated(m), worth)) == 0 - SumOf(Valued(m, worth))
  {
    hide SumOf;
    var a, b := Valued(m, worth), Valued(Negated(m), worth);
    forall k | k in a ensures b[k] == -a[k] {
      assert worth(k, -(m[k] as int)) == -worth(k, m[k]);
    }
    SumPointwise(a, b, map[]);
    SumOfNothing<K>();
  }

  lemma ValuedDisjoint<K>(a: map<K, nat>, b: map<K, nat>, worth: Worth<K>)
    requires a.Keys !! b.Keys
    ensures SumOf(Valued(a + b, worth)) == SumOf(Valued(a, worth)) + SumOf(Valued(b, worth))
  {
    hide SumOf;
    assert Valued(a + b, worth) == Valued(a, worth) + Valued(b, worth);
    SumDisjoint(Valued(a, worth), Valued(b, worth));
  }

  /** The worth of a container, entry by entry and as a whole. */
  lemma {:induction false} WorthOfAll<K(!new)>(t: Timeline<map<K, nat>>, rank: K -> nat, worth: Worth<K>, epoch: nat)
    requires Shaped(t, rank) && t.lastUpdate <= epoch
    ensures WorthThrough(t, worth, t.lastUpdate, epoch) == SumOf(Valued(AllBy(t, epoch), worth))
    decreases epoch
  {
    hide SumOf, DeltaAt, Valued, Shaped, AllBy;
    if epoch == t.lastUpdate {
      FirstBy(t, epoch);
    } else {
      WorthOfAll(t, rank, worth, epoch - 1);
      AllByStep(t, rank, epoch);
      ValuedDisjoint(AllBy(t, epoch - 1), Total(DeltaAt(t, epoch)), worth);
    }
  }

  // ---------- contributions ----------

  ghost function AllIn<K(!new)>(t: Option<Timeline<map<K, nat>>>, off: nat): map<K, nat> {
    if t.Some? then AllOf(t.value, off) else map[]
  }

  lemma AllByAll<K(!new)>(t: Timeline<map<K, nat>>, off: nat, epoch: nat)
    requires Fits(t, off) && t.lastUpdate + off <= epoch
    ensures AllBy(t, epoch) == AllOf(t, off)
  {
    hide Get, AddAmounts;
    AllOfAt(t, off, epoch);
  }

  lemma GapOfOne<K>(m: map<K, nat>)
    requires Positive(m)
    ensures Gap(map[], m) == m && Gap(m, map[]) == Negated(m)
  {
  }

  lemma AllPositive<K(!new)>(t: Timeline<map<K, nat>>, rank: K -> nat, off: nat)
    requires Shaped(t, rank)
    ensures Positive(AllOf(t, off))
  {
    hide Get, AddAmounts, Shaped;
    ShapedGet(t, rank, t.lastUpdate + off);
  }

  /** A change contributes the worth of what the amounts changed by. */
  lemma ContributionIsWorth<K(!new)>(data: Data<Timeline<map<K, nat>>>, worth: Worth<K>, rank: K -> nat, current: nat,
                                     off: nat)
    requires Odd(worth) && ContainerOk(data.pre, rank, off, current) && ContainerOk(data.post, rank, off, current)
    requires data.post.Some? ==> data.post.value.lastUpdate == current
    ensures var x := SumOf(Valued(Gap(AllIn(data.pre, off), AllIn(data.post, off)), worth));
      Contribution(data, worth, current, current, off) ==
        if data.pre.Some? && data.post.Some? then NonZero(x)
        else if data.pre.None? && data.post.None? then None else Some(x)
  {
    hide SumOf, Odd, Shaped, WorthThrough, Differences, AllOf, Valued, AllBy, Gap, Negated, Positive;
    if data.pre.Some? {
      var pre := data.pre.value;
      AllByAll(pre, off, current + off);
      AllByAll(pre, off, pre.lastUpdate + off);
      AllPositive(pre, rank, off);
      if data.post.None? {
        WorthOfAll(pre, rank, worth, pre.lastUpdate + off);
        GapOfOne(AllOf(pre, off));
        WorthNegated(AllOf(pre, off), worth);
      }
    }
    if data.post.Some? {
      var post := data.post.value;
      AllByAll(post, off, current + off);
      AllPositive(post, rank, off);
      if data.pre.Some? {
        DifferencesAre(data.pre.value, post, rank, current + off);
      } else {
        WorthOfAll(post, rank, worth, current + off);
        GapOfOne(AllOf(post, off));
      }
    }
  }

  // ---------- amounts added and taken ----------

  lemma GapOfAdded<K>(a: map<K, nat>, d: map<K, nat>)
    requires Positive(d)
    ensures Gap(a, AddAmounts(a, d)) == d && Gap(AddAmounts(a, d), a) == Negated(d)
  {
  }

  lemma GapOfTaken<K>(d: map<K, nat>, a: map<K, nat>)
    requires Positive(d)
    ensures Gap(AddAmounts(d, a), a) == Negated(d)
  {
  }

  /** The check values amounts as unbonding and withdrawing do. */
  lemma WorthAgrees(m: Bond, n: Unbond, slashes: seq<Slash>)
    ensures SumOf(Valued(m, BondWorth(slashes))) == WorthOf(m, slashes)
    ensures SumOf(Valued(n, UnbondWorth(slashes))) == Withdrawable(n, slashes)
  {
    hide SumOf, RatesFrom, RatesWithin, AfterSignedSlashes, AfterSlashes;
    forall k | k in m
      ensures AfterSignedSlashes(RatesFrom(slashes, k), m[k]) == AfterSlashes(RatesFrom(slashes, k), m[k])
    {
      SignedSlashes(RatesFrom(slashes, k), m[k]);
    }
    forall k | k in n
      ensures AfterSignedSlashes(RatesWithin(slashes, k.0, k.1), n[k]) ==
        AfterSlashes(RatesWithin(slashes, k.0, k.1), n[k])
    {
      SignedSlashes(RatesWithin(slashes, k.0, k.1), n[k]);
    }
    assert Valued(m, BondWorth(slashes)) == Worths(m, slashes);
    assert Valued(n, UnbondWorth(slashes)) == DueWorths(n, slashes);
  }

  /** Taken entries have keys of their own, so their worth is that of the whole. */
  lemma {:induction false} WorthOfTaken(u: Timeline<Bond>, taken: seq<Bond>, slashes: seq<Slash>, n: nat)
    requires Shaped(u, StartRank) && |taken| == |u.data| && n <= |taken|
    requires forall i :: 0 <= i < |taken| ==> taken[i].Keys <= Total(u.data[i]).Keys
    ensures WorthInAll(taken[..n], slashes) == WorthOf(TakenInAll(taken[..n]), slashes)
    ensures forall k :: k in TakenInAll(taken[..n]) ==> k < u.lastUpdate + n
    decreases n
  {
    hide SumOf, Worths, Shaped;
    if n == 0 {
      NothingTaken(slashes);
    } else {
      WorthOfTaken(u, taken, slashes, n - 1);
      assert taken[..n][..n - 1] == taken[..n - 1];
      var before, here := TakenInAll(taken[..n - 1]), taken[n - 1];
      EntryStarts(u, n - 1);
      AddDisjoint(before, here);
      WorthsDisjoint(before, here, slashes);
    }
  }

  lemma NothingTaken(slashes: seq<Slash>)
    ensures WorthOf(map[], slashes) == 0
  {
    assert Worths(map[], slashes) == map[];
    SumOfNothing<nat>();
  }

  lemma EntryStarts(u: Timeline<Bond>, i: nat)
    requires Shaped(u, StartRank) && i < |u.data|
    ensures forall k :: k in Total(u.data[i]) ==> k <= u.lastUpdate + i && (i > 0 ==> k == u.lastUpdate + i)
  {
    assert Placed(Total(DeltaAt(u, u.lastUpdate + i)), StartRank, u.lastUpdate + i, i == 0);
  }

  lemma WorthsDisjoint(a: Bond, b: Bond, slashes: seq<Slash>)
    requires a.Keys !! b.Keys
    ensures WorthOf(a + b, slashes) == WorthOf(a, slashes) + WorthOf(b, slashes)
  {
    hide SumOf, RatesFrom, AfterSlashes;
    assert Worths(a + b, slashes) == Worths(a, slashes) + Worths(b, slashes);
    SumDisjoint(Worths(a, slashes), Worths(b, slashes));
  }

  lemma {:induction false} TakenKeys(data: seq<Option<Bond>>, want: nat, taken: seq<Bond>, i: nat)
    requires Takes(data, want, taken) && i < |taken|
    ensures taken[i].Keys <= Total(data[i]).Keys
    decreases |data|
  {
    hide SumOf;
    var last := |data| - 1;
    if i < last {
      TakenKeys(data[..last], want - Min(want, SumOf(Total(data[last]))), taken[..last], i);
    }
  }

  /** What an unbonding takes off the stake is what the taken amounts are worth. */
  lemma TakenWorth(s: Pos, id: BondId, amount: nat, taken: seq<Bond>, slashes: seq<Slash>)
    requires BondsShaped(s) && Takeable(s, id, amount, taken)
    ensures WorthInAll(taken, slashes) == WorthOf(TakenInAll(taken), slashes)
  {
    hide AddAmounts, Advance, Takes, TakenInAll, Shaped, WorthInAll, WorthOf;
    var c, pipeline := s.epoch, s.params.pipelineLen;
    var u := Advance(AddAmounts<nat>, s.bonds[id], c, pipeline);
    AdvanceShape(AddAmounts<nat>, s.bonds[id], c, pipeline);
    ShapedAdvance(s.bonds[id], StartRank, c, pipeline);
    TakesSize(u.data, amount, taken);
    forall i | 0 <= i < |taken| ensures taken[i].Keys <= Total(u.data[i]).Keys {
      TakenKeys(u.data, amount, taken, i);
    }
    WorthOfTaken(u, taken, slashes, |taken|);
    assert taken[..|taken|] == taken;
  }

  lemma TakesSize(data: seq<Option<Bond>>, want: nat, taken: seq<Bond>)
    requires Takes(data, want, taken)
    ensures |taken| == |data|
  {
  }

  // ---------- evidence about the past ----------

  /** No evidence is of a later epoch. */
  ghost predicate EvidenceBy(slashes: seq<Slash>, epoch: nat) {
    forall i :: 0 <= i < |slashes| ==> slashes[i].epoch <= epoch
  }

  lemma {:induction false} PastRates(slashes: seq<Slash>, epoch: nat, start: nat, end: nat)
    requires EvidenceBy(slashes, epoch) && epoch <= end
    ensures RatesWithin(slashes, start, end) == RatesFrom(slashes, start)
    ensures start > epoch ==> RatesFrom(slashes, start) == []
    decreases |slashes|
  {
    if slashes != [] {
      assert forall i :: 0 <= i < |slashes[1..]| ==> slashes[1..][i] == slashes[i + 1];
      PastRates(slashes[1..], epoch, start, end);
    }
  }

  /** Then tokens are worth the same in a bond and in an unbond that ends later. */
  lemma WorthKept(m: Bond, slashes: seq<Slash>, epoch: nat, end: nat)
    requires EvidenceBy(slashes, epoch) && epoch <= end
    ensures Withdrawable(Ending(m, end), slashes) == WorthOf(m, slashes)
  {
    hide SumOf, Ending, DueWorths, EvidenceBy, RatesFrom, AfterSlashes;
    var worths: Bond := map k | k in m :: AfterSlashes(RatesFrom(slashes, k), m[k]);
    assert Worths(m, slashes) == worths;
    EndingWorths(m, worths, slashes, epoch, end);
    SumEnding(worths, end);
  }

  lemma EndingWorths(m: Bond, worths: Bond, slashes: seq<Slash>, epoch: nat, end: nat)
    requires EvidenceBy(slashes, epoch) && epoch <= end
    requires worths.Keys == m.Keys && forall k :: k in m ==> worths[k] == AfterSlashes(RatesFrom(slashes, k), m[k])
    ensures DueWorths(Ending(m, end), slashes) == Ending(worths, end)
  {
    hide EvidenceBy, RatesFrom, RatesWithin, AfterSlashes;
    forall k | k in m ensures RatesWithin(slashes, k, end) == RatesFrom(slashes, k) {
      PastRates(slashes, epoch, k, end);
    }
  }
}

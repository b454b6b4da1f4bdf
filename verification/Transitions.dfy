/**
 The steps of the transitions as loops over containers and hash maps, each proved
 to compute what the transitions on values say.
 */
module Transitions {
  import opened Options
  import opened T = Timelines
  import opened Sums
  import opened Params
  import opened ValidatorSets
  import opened Ledger
  import opened DeltaMaps
  import opened EpochedContainers

  // ---------- slashes ----------

  /** Applies a bond's slashes one after the other. */
  method SlashBond(slashes: seq<Slash>, start: nat, delta: nat) returns (left: nat)
    ensures left == AfterSlashes(RatesFrom(slashes, start), delta)
  {
    left := delta;
    for i := 0 to |slashes|
      invariant AfterSlashes(RatesFrom(slashes[i..], start), left) == AfterSlashes(RatesFrom(slashes, start), delta)
    {
      assert slashes[i..][0] == slashes[i] && slashes[i..][1..] == slashes[i + 1..];
      if slashes[i].epoch >= start {
        var rest := RatesFrom(slashes[i + 1..], start);
        assert ([slashes[i].rate] + rest)[1..] == rest;
        left := AfterSlash(slashes[i].rate, left);
      } else {
        assert RatesFrom(slashes[i..], start) == RatesFrom(slashes[i + 1..], start);
      }
    }
  }

  /** Applies an unbond's slashes one after the other, and sums what they take off. */
  method SlashUnbond(slashes: seq<Slash>, start: nat, end: nat, delta: nat) returns (left: nat, slashed: nat)
    ensures left == AfterSlashes(RatesWithin(slashes, start, end), delta)
    ensures slashed == SlashedOff(RatesWithin(slashes, start, end), delta)
  {
    hide MulBps;
    left, slashed := delta, 0;
    for i := 0 to |slashes|
      invariant AfterSlashes(RatesWithin(slashes[i..], start, end), left) ==
        AfterSlashes(RatesWithin(slashes, start, end), delta)
      invariant slashed + SlashedOff(RatesWithin(slashes[i..], start, end), left) ==
        SlashedOff(RatesWithin(slashes, start, end), delta)
    {
      assert slashes[i..][0] == slashes[i] && slashes[i..][1..] == slashes[i + 1..];
      if start <= slashes[i].epoch <= end {
        ghost var rest := RatesWithin(slashes[i + 1..], start, end);
        assert ([slashes[i].rate] + rest)[1..] == rest;
        slashed := slashed + MulBps(slashes[i].rate, left);
        left := AfterSlash(slashes[i].rate, left);
      } else {
        assert RatesWithin(slashes[i..], start, end) == RatesWithin(slashes[i + 1..], start, end);
      }
    }
  }

  /** Sums what due unbonds are worth and what is slashed of them, in any order of
      keys. */
  method WithdrawDue(due: Unbond, slashes: seq<Slash>) returns (withdrawn: nat, slashed: nat)
    ensures withdrawn == Withdrawable(due, slashes) && slashed == SlashedFrom(due, slashes)
  {
    ghost var worth, off := DueWorths(due, slashes), DueSlashes(due, slashes);
    withdrawn, slashed := 0, 0;
    var rest := due.Keys;
    while rest != {}
      invariant rest <= due.Keys
      invariant withdrawn + SumKeys(rest, worth) == SumKeys(due.Keys, worth)
      invariant slashed + SumKeys(rest, off) == SumKeys(due.Keys, off)
      decreases rest
    {
      var k :| k in rest;
      KeysSplit(rest, worth, k);
      KeysSplit(rest, off, k);
      var left, taken := SlashUnbond(slashes, k.0, k.1, due[k]);
      withdrawn := withdrawn + left;
      slashed := slashed + taken;
      rest := rest - {k};
    }
    assert worth.Keys == due.Keys && off.Keys == due.Keys;
  }

  // ---------- voting powers ----------

  /** Updates the validator's and the total voting power, epoch by epoch. */
  method UpdateVotingPowers(params: PosParams, i: nat, total: EpochedDelta<int>, power: EpochedDelta<int>,
                            totalPower: EpochedDelta<int>, current: nat)
    returns (r: Outcome<()>)
    requires power != totalPower && total != power && total != totalPower
    requires total.add == AddInts && power.add == AddInts && totalPower.add == AddInts
    modifies power, totalPower
    ensures match UpdatePowers(params, total.Value(), old(power.Value()), old(totalPower.Value()), current, current + i)
      case Ok((p, t)) => r == Ok(()) && power.Value() == p && totalPower.Value() == t
      case Err(e) => r == Err(e)
      case Panicked => r == Panicked
  {
    hide AddAt, T.Get, VotingPower;
    ghost var goal := UpdatePowers(params, total.Value(), power.Value(), totalPower.Value(), current, current + i);
    var x := current + i;
    while x <= current + params.unbondingLen
      invariant current <= x
      invariant UpdatePowers(params, total.Value(), power.Value(), totalPower.Value(), current, x) == goal
      decreases current + params.unbondingLen + 1 - x
    {
      var stake := total.Get(x);
      var tokens := stake.UnwrapOr(0);
      if tokens < 0 || tokens > U64_MAX {
        return Panicked;
      }
      var now := TryVotingPowerDelta(params, tokens);
      if now.None? {
        return Err(VotingPowerOverflow);
      }
      var before := power.Get(x);
      var delta := now.value - before.UnwrapOr(0);
      power.AddAtEpoch(delta, current, x, params.unbondingLen);
      totalPower.AddAtEpoch(delta, current, x, params.unbondingLen);
      x := x + 1;
    }
    r := Ok(());
  }

  // ---------- validator sets ----------

  /** Updates the validator sets from an offset on; aborts where a conversion of
      the stake before or after the change would. */
  method UpdateValidatorSet(params: PosParams, validator: Address, change: int, i: nat, sets: Epoched<ValidatorSet>,
                            total: Option<Timeline<int>>, current: nat)
    returns (r: Outcome<()>)
    requires i <= params.unbondingLen && Fits(sets.Value(), params.unbondingLen)
    modifies sets
    ensures r == if MoveFits(old(sets.Value()), total, change, current + i, current + params.unbondingLen)
      then Ok(()) else Panicked
    ensures r.Ok? ==>
      sets.Value() == UpdateFrom(Mover(params, validator, total, change), old(sets.Value()), current, i,
        params.unbondingLen)
  {
    var stored := sets.Store();
    for x := current + i to current + params.unbondingLen + 1
      invariant sets.Value() == old(sets.Value()) == stored
      invariant forall y :: current + i <= y < x && Visited(stored, current + i, y) ==>
        FitsU64(StakeIn(total, y)) && FitsU64(StakeIn(total, y) + change)
    {
      if Visited(stored, current + i, x) && !(FitsU64(StakeIn(total, x)) && FitsU64(StakeIn(total, x) + change)) {
        return Panicked;
      }
    }
    sets.UpdateFromOffset(Mover(params, validator, total, change), current, i, params.unbondingLen);
    r := Ok(());
  }

  /** Rewrites the containers that depend on a validator's stake. */
  method RewriteStake(params: PosParams, sets: Timeline<ValidatorSet>, total: Option<Timeline<int>>,
                      power: Option<Timeline<int>>, totalPower: Timeline<int>, validator: Address, change: int,
                      i: nat, current: nat)
    returns (r: Outcome<Written>)
    requires i <= params.unbondingLen && Fits(sets, params.unbondingLen)
    ensures r == Rewrite(params, sets, total, power, totalPower, validator, change, i, current)
  {
    hide AddAt, UpdateFrom, UpdatePowers, MoveFits, Mover, InitAt;
    var newSets := new Epoched.Load(sets);
    var moved := UpdateValidatorSet(params, validator, change, i, newSets, total, current);
    if moved.IsFailure() {
      return Panicked;
    }
    var newTotal: EpochedDelta<int>;
    if total.Some? {
      newTotal := new EpochedDelta.Load(total.value, AddInts);
      newTotal.AddAtOffset(change, current, i, params.unbondingLen);
    } else {
      newTotal := new EpochedDelta.InitAtIndex(change, current, i, AddInts);
    }
    var newPower: EpochedDelta<int>;
    if power.Some? {
      newPower := new EpochedDelta.Load(power.value, AddInts);
    } else {
      newPower := new EpochedDelta.InitAtIndex(0, current, i, AddInts);
    }
    var newTotalPower := new EpochedDelta.Load(totalPower, AddInts);
    var updated := UpdateVotingPowers(params, i, newTotal, newPower, newTotalPower, current);
    if updated.IsFailure() {
      return updated.PropagateFailure();
    }
    var storedSets := newSets.Store();
    var storedTotal := newTotal.Store();
    var storedPower := newPower.Store();
    var storedTotalPower := newTotalPower.Store();
    r := Ok(Written(storedSets, storedTotal, storedPower, storedTotalPower));
  }

  // ---------- unbonding ----------

  /** An unbond with taken amounts added; unchanged when nothing was taken. */
  ghost function WithTaken(unbond: Timeline<Unbond>, taken: Bond, end: nat, current: nat, off: nat): Timeline<Unbond> {
    if taken == map[] then unbond else AddAt(AddAmounts<(nat, nat)>, unbond, Ending(taken, end), current, off, off)
  }

  lemma EndingAdds(a: Bond, b: Bond, end: nat)
    ensures AddAmounts(Ending(a, end), Ending(b, end)) == Ending(AddAmounts(a, b), end)
  {
    var l, r := AddAmounts(Ending(a, end), Ending(b, end)), Ending(AddAmounts(a, b), end);
    forall k ensures k in l <==> k in r {
      if k in l {
        assert k.0 in AddAmounts(a, b);
      }
    }
  }

  lemma WithTakenTwice(unbond: Timeline<Unbond>, a: Bond, b: Bond, end: nat, current: nat, off: nat)
    requires Fits(unbond, off)
    ensures WithTaken(WithTaken(unbond, a, end, current, off), b, end, current, off) ==
      WithTaken(unbond, AddAmounts(a, b), end, current, off)
  {
    hide AddAt, Ending;
    if a == map[] {
      assert AddAmounts(a, b) == b;
    } else if b == map[] {
      AddAmountsNothing(a);
    } else {
      NotNothing(a, b);
      AddAmountsLaws<(nat, nat)>();
      AddAtTwice(AddAmounts<(nat, nat)>, unbond, Ending(a, end), Ending(b, end), current, off, off);
      EndingAdds(a, b, end);
    }
  }

  lemma NotNothing(a: Bond, b: Bond)
    requires a != map[]
    ensures AddAmounts(a, b) != map[]
  {
    var k :| k in a;
    assert k in AddAmounts(a, b);
  }

  lemma WithTakenFits(unbond: Timeline<Unbond>, taken: Bond, end: nat, current: nat, off: nat)
    requires Fits(unbond, off)
    ensures Fits(WithTaken(unbond, taken, end, current, off), off)
  {
    if taken != map[] {
      AddAtDelta(AddAmounts<(nat, nat)>, unbond, Ending(taken, end), current, off, off, 0);
    }
  }

  lemma LeftOne(m: Bond, taken: Bond, k: nat, x: nat)
    requires k in m && k !in taken && x <= m[k]
    ensures LeftIn(m, taken[k := x]) == if x < m[k] then LeftIn(m, taken)[k := m[k] - x] else LeftIn(m, taken) - {k}
  {
    var l, r := LeftIn(m, taken), LeftIn(m, taken[k := x]);
    if x < m[k] {
      assert r.Keys == l.Keys;
    } else {
      assert r.Keys == l.Keys - {k};
    }
  }

  lemma WorthOne(taken: Bond, k: nat, x: nat, slashes: seq<Slash>)
    requires k !in taken
    ensures WorthOf(taken[k := x], slashes) == WorthOf(taken, slashes) + AfterSlashes(RatesFrom(slashes, k), x)
  {
    hide SumOf, AfterSlashes, RatesFrom;
    var y := AfterSlashes(RatesFrom(slashes, k), x);
    assert Worths(taken[k := x], slashes) == Worths(taken, slashes)[k := y];
    SumUpdate(Worths(taken, slashes), k, y);
  }

  lemma TakenOne(taken: Bond, k: nat, x: nat)
    requires k !in taken
    ensures SumOf(taken[k := x]) == SumOf(taken) + x
    ensures AddAmounts(taken, One(k, x)) == taken[k := x]
  {
    hide SumOf;
    SumUpdate(taken, k, x);
  }

  function One(k: nat, x: nat): Bond {
    map[k := x]
  }

  /** Everything visited was taken whole, as long as more is wanted. */
  ghost predicate TakenSoFar(m: Bond, rest: set<nat>, want: nat, wanted: nat, taken: Bond) {
    && rest <= m.Keys && taken.Keys <= m.Keys - rest
    && (forall k :: k in taken ==> taken[k] <= m[k] && (taken[k] == 0 ==> m[k] == 0))
    && want == wanted + SumOf(taken)
    && (wanted > 0 ==> taken.Keys == m.Keys - rest && forall k :: k in taken ==> taken[k] == m[k])
  }

  lemma TakenInTheEnd(m: Bond, want: nat, wanted: nat, taken: Bond)
    requires TakenSoFar(m, {}, want, wanted, taken)
    ensures TakesFrom(Some(m), want, taken)
    ensures wanted == want - Min(want, SumOf(m))
  {
    hide SumOf;
    SumLess(taken, m);
    SumNonNegative(taken);
    if wanted > 0 {
      assert taken == m;
    }
  }

  /** Takes tokens from one entry of a bond, key by key in any order, until no more
      are wanted, and writes an unbond for each. */
  method TakeFromEntry(m: Bond, want: nat, slashes: seq<Slash>, end: nat, unbond: EpochedDelta<Unbond>, current: nat,
                       off: nat)
    returns (left: Bond, wanted: nat, worth: nat, ghost taken: Bond)
    requires unbond.add == AddAmounts<(nat, nat)> && Fits(unbond.Value(), off)
    modifies unbond
    ensures TakesFrom(Some(m), want, taken)
    ensures left == LeftIn(m, taken)
    ensures wanted == want - Min(want, SumOf(m))
    ensures worth == WorthOf(taken, slashes)
    ensures unbond.Value() == WithTaken(old(unbond.Value()), taken, end, current, off)
  {
    hide SumOf, AddAt, WorthOf, WithTaken, LeftIn, Ending, AddAmounts, AfterSlashes, RatesFrom, Piece;
    ghost var initial := unbond.Value();
    left, wanted, worth, taken := m, want, 0, map[];
    var rest := m.Keys;
    NothingTaken(m, slashes, initial, end, current, off);
    while rest != {}
      invariant TakenSoFar(m, rest, want, wanted, taken)
      invariant left == LeftIn(m, taken) && worth == WorthOf(taken, slashes)
      invariant unbond.Value() == WithTaken(initial, taken, end, current, off)
      decreases rest
    {
      var k :| k in rest;
      rest := rest - {k};
      if wanted != 0 {
        var x := if wanted > m[k] then m[k] else wanted;
        LeftOne(m, taken, k, x);
        WorthOne(taken, k, x, slashes);
        TakenOne(taken, k, x);
        WithTakenOne(initial, taken, k, x, end, current, off);
        var sl := SlashBond(slashes, k, x);
        worth := worth + sl;
        unbond.AddAtOffset(Piece(k, end, x), current, off, off);
        left := if x < m[k] then left[k := m[k] - x] else left - {k};
        wanted := wanted - x;
        taken := taken[k := x];
      }
    }
    TakenInTheEnd(m, want, wanted, taken);
  }

  lemma NothingTaken(m: Bond, slashes: seq<Slash>, unbond: Timeline<Unbond>, end: nat, current: nat, off: nat)
    ensures LeftIn(m, map[]) == m && WorthOf(map[], slashes) == 0 && SumOf<nat>(map[]) == 0
    ensures WithTaken(unbond, map[], end, current, off) == unbond
  {
    assert LeftIn(m, map[]).Keys == m.Keys;
    assert Worths(map[], slashes) == map[];
    SumOfNothing<nat>();
  }

  /** The unbond written for one key. */
  function Piece(k: nat, end: nat, x: nat): Unbond {
    map[(k, end) := x]
  }

  lemma WithTakenOne(unbond: Timeline<Unbond>, taken: Bond, k: nat, x: nat, end: nat, current: nat, off: nat)
    requires Fits(unbond, off) && k !in taken
    ensures AddAt(AddAmounts<(nat, nat)>, WithTaken(unbond, taken, end, current, off), Piece(k, end, x), current,
      off, off) ==
      WithTaken(unbond, taken[k := x], end, current, off)
  {
    hide AddAt, AddAmounts, Ending, SumOf, Piece;
    WithTakenTwice(unbond, taken, One(k, x), end, current, off);
    TakenOne(taken, k, x);
    assert k in One(k, x);
    PieceIsEnding(k, end, x);
  }

  lemma PieceIsEnding(k: nat, end: nat, x: nat)
    ensures Ending(One(k, x), end) == Piece(k, end, x)
  {
  }

  // ---------- taking from the whole bond ----------

  lemma {:induction false} TakenFront(t: Bond, ys: seq<Bond>, slashes: seq<Slash>)
    ensures TakenInAll([t] + ys) == AddAmounts(TakenInAll(ys), t)
    ensures WorthInAll([t] + ys, slashes) == WorthInAll(ys, slashes) + WorthOf(t, slashes)
    decreases |ys|
  {
    hide AddAmounts, WorthOf;
    if ys == [] {
      assert ([t] + ys)[..0] == [] && [t] + ys == [t];
    } else {
      var last := |ys| - 1;
      assert ([t] + ys)[..last + 1] == [t] + ys[..last];
      TakenFront(t, ys[..last], slashes);
      AddAmountsSwap(TakenInAll(ys[..last]), t, ys[last]);
    }
  }

  ghost function Empties(n: nat): (r: seq<Bond>)
    ensures |r| == n && forall i :: 0 <= i < n ==> r[i] == map[]
  {
    if n == 0 then [] else Empties(n - 1) + [map[]]
  }

  lemma {:induction false} TakesNothing(data: seq<Option<Bond>>)
    ensures Takes(data, 0, Empties(|data|))
  {
    hide SumOf;
    SumOfNothing<nat>();
    if data != [] {
      var last := |data| - 1;
      SumNonNegative(Total(data[last]));
      assert Empties(|data|)[..last] == Empties(last);
      TakesNothing(data[..last]);
    }
  }

  lemma {:induction false} TakenEmpties(n: nat, ys: seq<Bond>, slashes: seq<Slash>)
    ensures TakenInAll(Empties(n) + ys) == TakenInAll(ys)
    ensures WorthInAll(Empties(n) + ys, slashes) == WorthInAll(ys, slashes)
  {
    hide AddAmounts, SumOf, TakenInAll, WorthInAll;
    if n == 0 {
      assert Empties(0) + ys == ys;
    } else {
      var none: Bond := map[];
      assert Empties(n) + ys == Empties(n - 1) + ([none] + ys);
      TakenEmpties(n - 1, [none] + ys, slashes);
      TakenFront(none, ys, slashes);
      AddAmountsNothing(TakenInAll(ys));
      NoWorth(slashes);
    }
  }

  lemma NoWorth(slashes: seq<Slash>)
    ensures WorthOf(map[], slashes) == 0
  {
    assert Worths(map[], slashes) == map[];
    SumOfNothing<nat>();
  }

  lemma LeftAlone(x: Option<Bond>)
    ensures LeftOver(x, map[]) == x
  {
    if x.Some? {
      assert LeftIn(x.value, map[]) == x.value;
    }
  }

  /** The entries from `i` on are dealt with as `suffix` says. */
  ghost predicate Taking(data: seq<Option<Bond>>, amount: nat, i: nat, wanted: nat, suffix: seq<Bond>) {
    i + |suffix| == |data| && forall pre :: Takes(data[..i], wanted, pre) ==> Takes(data, amount, pre + suffix)
  }

  lemma TakingStart(data: seq<Option<Bond>>, amount: nat)
    ensures Taking(data, amount, |data|, amount, [])
  {
    assert data[..|data|] == data;
    forall pre | Takes(data[..|data|], amount, pre) ensures Takes(data, amount, pre + []) {
      assert pre + [] == pre;
    }
  }

  lemma TakingStep(data: seq<Option<Bond>>, amount: nat, i: nat, wanted: nat, suffix: seq<Bond>, t: Bond, wanted': nat)
    requires Taking(data, amount, i, wanted, suffix) && i > 0
    requires TakesFrom(data[i - 1], wanted, t) && wanted' == wanted - Min(wanted, SumOf(Total(data[i - 1])))
    ensures Taking(data, amount, i - 1, wanted', [t] + suffix)
  {
    hide SumOf, TakesFrom;
    forall pre | Takes(data[..i - 1], wanted', pre) ensures Takes(data, amount, pre + ([t] + suffix)) {
      assert data[..i][..i - 1] == data[..i - 1];
      assert (pre + [t])[..i - 1] == pre;
      assert Takes(data[..i], wanted, pre + [t]);
      assert pre + ([t] + suffix) == (pre + [t]) + suffix;
    }
  }

  lemma TakingEnd(data: seq<Option<Bond>>, amount: nat, i: nat, wanted: nat, suffix: seq<Bond>)
    requires Taking(data, amount, i, wanted, suffix) && (i == 0 || wanted == 0)
    ensures Takes(data, amount, Empties(i) + suffix)
  {
    hide Takes;
    if wanted == 0 {
      TakesNothing(data[..i]);
    } else {
      NoData(wanted);
      assert data[..0] == [];
    }
    assert Takes(data[..i], wanted, Empties(i));
  }

  lemma NoData(wanted: nat)
    ensures Takes([], wanted, Empties(0))
  {
  }

  /** Takes tokens out of a bond, the future-most entry first. */
  method TakeTokens(bond: EpochedDelta<Bond>, amount: nat, slashes: seq<Slash>, end: nat,
                    unbond: EpochedDelta<Unbond>, current: nat, pipeline: nat, off: nat)
    returns (worth: nat, ghost taken: seq<Bond>)
    requires bond as object != unbond
    requires bond.add == AddAmounts<nat> && unbond.add == AddAmounts<(nat, nat)>
    requires Fits(bond.Value(), pipeline) && Fits(unbond.Value(), off)
    modifies bond, unbond
    ensures var u := Advance(AddAmounts<nat>, old(bond.Value()), current, pipeline);
      && Takes(u.data, amount, taken)
      && bond.Value() == u.(data := LeftOvers(u.data, taken))
    ensures worth == WorthInAll(taken, slashes)
    ensures unbond.Value() == WithTaken(old(unbond.Value()), TakenInAll(taken), end, current, off)
  {
    hide Takes, TakesFrom, WorthInAll, TakenInAll, WithTaken, Advance, AddAmounts, AddAt, SumOf, LeftOver, WorthOf,
      Taking, LeftIn;
    ghost var initial := unbond.Value();
    bond.UpdateData(current, pipeline);
    AdvanceShape(AddAmounts<nat>, old(bond.Value()), current, pipeline);
    ghost var data := bond.data;
    var ix, wanted := |bond.data|, amount;
    worth := 0;
    ghost var suffix: seq<Bond> := [];
    TakingStart(data, amount);
    NothingInAll(slashes, initial, end, current, off);
    while ix > 0 && wanted != 0
      invariant 0 <= ix <= |data| == |bond.data| && |suffix| == |data| - ix
      invariant bond.lastUpdate == current
      invariant Taking(data, amount, ix, wanted, suffix)
      invariant forall j :: 0 <= j < ix ==> bond.data[j] == data[j]
      invariant forall j :: ix <= j < |data| ==> bond.data[j] == LeftOver(data[j], suffix[j - ix])
      invariant worth == WorthInAll(suffix, slashes)
      invariant unbond.Value() == WithTaken(initial, TakenInAll(suffix), end, current, off)
      decreases ix
    {
      ghost var t: Bond := map[];
      if bond.data[ix - 1].Some? {
        WithTakenFits(initial, TakenInAll(suffix), end, current, off);
        var left, more, w, tk := TakeFromEntry(bond.data[ix - 1].value, wanted, slashes, end, unbond, current, off);
        LeftOverSome(bond.data[ix - 1].value, tk);
        bond.data := bond.data[ix - 1 := Some(left)];
        worth := worth + w;
        WithTakenTwice(initial, TakenInAll(suffix), tk, end, current, off);
        t := tk;
        TakingStep(data, amount, ix, wanted, suffix, t, more);
        wanted := more;
        TakenFront(t, suffix, slashes);
      } else {
        TakeFromNone(wanted);
        TakingStep(data, amount, ix, wanted, suffix, t, wanted);
        TakenFront(t, suffix, slashes);
        LeftAlone(bond.data[ix - 1]);
        NoWorth(slashes);
        AddAmountsNothing(TakenInAll(suffix));
      }
      suffix := [t] + suffix;
      ix := ix - 1;
    }
    taken := Empties(ix) + suffix;
    TakingEnd(data, amount, ix, wanted, suffix);
    TakenEmpties(ix, suffix, slashes);
    forall j | 0 <= j < |data| ensures bond.data[j] == LeftOver(data[j], taken[j]) {
      if j < ix {
        LeftAlone(data[j]);
      }
    }
    assert bond.data == LeftOvers(data, taken);
  }

  lemma LeftOverSome(m: Bond, taken: Bond)
    ensures LeftOver(Some(m), taken) == Some(LeftIn(m, taken))
  {
  }

  lemma TakeFromNone(wanted: nat)
    ensures TakesFrom(None, wanted, map[]) && SumOf<nat>(Total(None)) == 0
  {
    SumOfNothing<nat>();
  }

  lemma NothingInAll(slashes: seq<Slash>, unbond: Timeline<Unbond>, end: nat, current: nat, off: nat)
    ensures WorthInAll([], slashes) == 0
    ensures WithTaken(unbond, TakenInAll([]), end, current, off) == unbond
  {
  }
}

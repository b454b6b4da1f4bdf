/**
 What an accepted list of changes guarantees: stakes change with the bonds behind
 them, tokens with the bonds and unbonds, and not before the pipeline epoch.
 */
module ValidationSound {
  import opened Options
  import opened Timelines
  import opened Sums
  import opened Params
  import opened ValidatorSets
  import opened Ledger
  import opened StakeViews
  import opened DeltaMaps
  import opened BondInvariant
  import opened Validation

  // ---------- what the changes say ----------

  /** All the tokens of a container, or of none. */
  ghost function Amount<K(!new)>(t: Option<Timeline<map<K, nat>>>, off: nat): int {
    match t
    case Some(t) => SumOf(AllOf(t, off))
    case None => 0
  }

  ghost function Final(t: Option<Timeline<int>>, epoch: nat): int {
    match t
    case Some(t) => At(t, epoch)
    case None => 0
  }

  /** The change of the tokens bonded to a validator. */
  ghost function BondedChange(params: PosParams, change: Change, v: Address): int {
    if change.BondChange? && change.id.validator == v
    then Amount(change.bond.post, params.pipelineLen) - Amount(change.bond.pre, params.pipelineLen)
    else 0
  }

  ghost function UnbondedChange(params: PosParams, change: Change, v: Address): int {
    if change.UnbondChange? && change.id.validator == v
    then Amount(change.unbond.post, params.unbondingLen) - Amount(change.unbond.pre, params.unbondingLen)
    else 0
  }

  /** The change of a validator's stake in the end. */
  ghost function StakeChange(params: PosParams, change: Change, v: Address, current: nat): int {
    if change.TotalDeltasChange? && change.address == v
    then Final(change.total.post, current + params.unbondingLen) - Final(change.total.pre,
      current + params.unbondingLen)
    else 0
  }

  // ---------- well-formed changes ----------

  ghost predicate ContainerOk<K(!new)>(t: Option<Timeline<map<K, nat>>>, rank: K -> nat, off: nat, current: nat) {
    t.Some? ==> Fits(t.value, off) && t.value.lastUpdate <= current && Shaped(t.value, rank)
  }

  ghost predicate TotalFits(t: Option<Timeline<int>>, off: nat, current: nat) {
    t.Some? ==> Fits(t.value, off) && t.value.lastUpdate <= current
  }

  /** The vectors fit their windows and hold positive amounts under the epochs
      they belong to, nothing was updated later than now, and no validator was
      slashed. */
  ghost predicate ChangeOk(params: PosParams, change: Change, current: nat) {
    match change
    case BondChange(_, data, slashes) =>
      slashes == [] && ContainerOk(data.pre, StartRank, params.pipelineLen, current)
        && ContainerOk(data.post, StartRank, params.pipelineLen, current)
    case UnbondChange(_, data, slashes) =>
      slashes == [] && ContainerOk(data.pre, EndRank, params.unbondingLen, current)
        && ContainerOk(data.post, EndRank, params.unbondingLen, current)
    case TotalDeltasChange(_, data) => TotalFits(data.pre, params.unbondingLen, current)
      && TotalFits(data.post, params.unbondingLen, current)
    case _ => true
  }

  // ---------- differences of amounts ----------

  lemma SumAddDropping<K>(d: map<K, int>, m: map<K, nat>)
    ensures SumOf(AddDropping(d, m)) == SumOf(d) + SumOf(m)
  {
    hide SumOf;
    SumPointwise(d, m, AddDropping(d, m));
  }

  lemma SumNegated<K>(m: map<K, nat>)
    ensures SumOf(Negated(m)) == 0 - SumOf(m)
  {
    hide SumOf;
    SumPointwise(Negated(m), m, map[]);
    SumOfNothing<K>();
  }

  lemma SumDisjoint<K>(d: map<K, int>, m: map<K, int>)
    requires d.Keys !! m.Keys
    ensures SumOf(d + m) == SumOf(d) + SumOf(m)
  {
    hide SumOf;
    SumPointwise(d, m, d + m);
  }

  /** The amounts of one entry before and after go into the differences. */
  lemma SumVisit<K>(d: map<K, int>, pre: Timeline<map<K, nat>>, post: Timeline<map<K, nat>>, epoch: nat)
    requires d.Keys !! Total(DeltaAt(pre, epoch)).Keys
    ensures SumOf(Visit(d, pre, post, epoch)) ==
      SumOf(d) + SumOf(Total(DeltaAt(post, epoch))) - SumOf(Total(DeltaAt(pre, epoch)))
    ensures Visit(d, pre, post, epoch).Keys <= d.Keys + Total(DeltaAt(pre, epoch)).Keys
      + Total(DeltaAt(post, epoch)).Keys
  {
    hide SumOf, DeltaAt;
    var m := Total(DeltaAt(pre, epoch));
    SumNegated(m);
    SumDisjoint(d, Negated(m));
    SumAddDropping(d + Negated(m), Total(DeltaAt(post, epoch)));
  }

  /** The tokens of a container up to an epoch. */
  ghost function Through<K(!new)>(t: Timeline<map<K, nat>>, epoch: nat): int {
    if epoch < t.lastUpdate then 0 else SumOf(Total(Get(AddAmounts<K>, t, epoch)))
  }

  lemma ThroughStep<K(!new)>(t: Timeline<map<K, nat>>, epoch: nat)
    requires epoch > 0
    ensures Through(t, epoch) == Through(t, epoch - 1) + SumOf(Total(DeltaAt(t, epoch)))
  {
    hide SumOf, AddAmounts, DeltaAt;
    SumOfNothing<K>();
    if epoch < t.lastUpdate {
      NoEntryBefore(t, epoch);
    } else if epoch > t.lastUpdate {
      PlusAmounts(Get(AddAmounts<K>, t, epoch - 1), DeltaAt(t, epoch));
      SumAddAmounts(Total(Get(AddAmounts<K>, t, epoch - 1)), Total(DeltaAt(t, epoch)));
    }
  }

  /** The keys of an entry belong to its epoch or to earlier ones. */
  lemma EntryRanks<K(!new)>(t: Timeline<map<K, nat>>, rank: K -> nat, epoch: nat)
    requires Shaped(t, rank)
    ensures forall k :: k in Total(DeltaAt(t, epoch)) ==> rank(k) <= epoch
    ensures epoch != t.lastUpdate ==> forall k :: k in Total(DeltaAt(t, epoch)) ==> rank(k) == epoch
  {
    hide DeltaAt;
    if epoch < t.lastUpdate {
      NoEntryBefore(t, epoch);
    } else {
      assert Placed(Total(DeltaAt(t, epoch)), rank, epoch, epoch == t.lastUpdate);
    }
  }

  /** No token is counted twice or missed in the differences. */
  lemma {:induction false} DifferencesSum<K(!new)>(pre: Timeline<map<K, nat>>, post: Timeline<map<K, nat>>,
        rank: K -> nat, epoch: nat)
    requires Shaped(pre, rank) && Shaped(post, rank) && pre.lastUpdate <= post.lastUpdate && pre.lastUpdate <= epoch
    ensures SumOf(Differences(pre, post, epoch)) == Through(post, epoch) - Through(pre, epoch)
    ensures forall k :: k in Differences(pre, post, epoch) ==> rank(k) <= epoch
    decreases epoch
  {
    hide SumOf, DeltaAt, Visit, Shaped, Through;
    EntryRanks(pre, rank, epoch);
    EntryRanks(post, rank, epoch);
    if epoch == pre.lastUpdate {
      SumVisit(map[], pre, post, epoch);
      FirstThrough(pre, epoch);
      FirstThrough(post, epoch);
      SumOfNothing<K>();
    } else {
      DifferencesSum(pre, post, rank, epoch - 1);
      var d := Differences(pre, post, epoch - 1);
      assert d.Keys !! Total(DeltaAt(pre, epoch)).Keys;
      SumVisit(d, pre, post, epoch);
      ThroughStep(pre, epoch);
      ThroughStep(post, epoch);
    }
  }

  lemma FirstThrough<K(!new)>(t: Timeline<map<K, nat>>, epoch: nat)
    requires epoch <= t.lastUpdate
    ensures Through(t, epoch) == SumOf(Total(DeltaAt(t, epoch)))
  {
    SumOfNothing<K>();
  }

  // ---------- contributions without slashes ----------

  ghost predicate Plain<K(!new)>(worth: Worth<K>) {
    forall k, x :: worth(k, x) == x
  }

  lemma NoSlashesPlain()
    ensures Plain(BondWorth([])) && Plain(UnbondWorth([]))
  {
  }

  lemma ValuedPlain<K(!new)>(m: map<K, int>, worth: Worth<K>)
    requires Plain(worth)
    ensures Valued(m, worth) == m
  {
    forall k | k in m ensures Valued(m, worth)[k] == m[k] {
      assert worth(k, m[k]) == m[k];
    }
  }

  lemma {:induction false} WorthPlain<K(!new)>(t: Timeline<map<K, nat>>, worth: Worth<K>, epoch: nat)
    requires Plain(worth) && t.lastUpdate <= epoch
    ensures WorthThrough(t, worth, t.lastUpdate, epoch) == Through(t, epoch)
    decreases epoch
  {
    hide SumOf, DeltaAt, Through, Plain, Valued;
    ValuedPlain(Total(DeltaAt(t, epoch)), worth);
    if epoch == t.lastUpdate {
      FirstThrough(t, epoch);
    } else {
      WorthPlain(t, worth, epoch - 1);
      ThroughStep(t, epoch);
    }
  }

  lemma ThroughAll<K(!new)>(t: Timeline<map<K, nat>>, off: nat, epoch: nat)
    requires Fits(t, off) && t.lastUpdate + off <= epoch
    ensures Through(t, epoch) == SumOf(AllOf(t, off))
  {
    hide SumOf, Get, AddAmounts, AllOf;
    AllOfAt(t, off, epoch);
  }

  /** Without slashes a change contributes what the amounts changed by. */
  lemma ContributionIsChange<K(!new)>(data: Data<Timeline<map<K, nat>>>, worth: Worth<K>, rank: K -> nat,
                                      current: nat, off: nat)
    requires Plain(worth) && ContainerOk(data.pre, rank, off, current) && ContainerOk(data.post, rank, off, current)
    requires data.post.Some? ==> data.post.value.lastUpdate == current
    ensures Contribution(data, worth, current, current, off).UnwrapOr(0) ==
      Amount(data.post, off) - Amount(data.pre, off)
  {
    hide SumOf, Plain, Shaped, Through, WorthThrough, Differences, AllOf, Valued;
    if data.pre.Some? {
      ThroughAll(data.pre.value, off, current + off);
      ThroughAll(data.pre.value, off, data.pre.value.lastUpdate + off);
      WorthPlain(data.pre.value, worth, data.pre.value.lastUpdate + off);
    }
    if data.post.Some? {
      ThroughAll(data.post.value, off, current + off);
      WorthPlain(data.post.value, worth, current + off);
      if data.pre.Some? {
        DifferencesSum(data.pre.value, data.post.value, rank, current + off);
        ValuedPlain(Differences(data.pre.value, data.post.value, current + off), worth);
      }
    }
  }

  // ---------- stakes ----------

  /** The sums over the window are the stakes before and after. */
  lemma {:induction false} PreSumIsAt(t: Timeline<int>, current: nat, epoch: nat)
    requires t.lastUpdate <= current <= epoch
    ensures PreSum(Some(t), current, epoch) == At(t, epoch)
    decreases epoch
  {
    if epoch > current {
      PreSumIsAt(t, current, epoch - 1);
    }
  }

  lemma {:induction false} PostSumIsAt(t: Timeline<int>, epoch: nat)
    requires t.lastUpdate <= epoch
    ensures PostSum(t, t.lastUpdate, epoch) == At(t, epoch)
    decreases epoch
  {
    if epoch > t.lastUpdate {
      PostSumIsAt(t, epoch - 1);
    }
  }

  lemma {:induction false} PreSumNone(current: nat, epoch: nat)
    ensures PreSum(None, current, epoch) == 0
    decreases epoch
  {
    if epoch > current {
      PreSumNone(current, epoch - 1);
    }
  }

  lemma TotalIsChange(data: Data<Timeline<int>>, current: nat, epoch: nat)
    requires data.post.Some? && data.post.value.lastUpdate == current <= epoch
    requires data.pre.Some? ==> data.pre.value.lastUpdate <= current
    ensures PostSum(data.post.value, current, epoch) == Final(data.post, epoch)
    ensures PreSum(data.pre, current, epoch) == Final(data.pre, epoch)
  {
    hide At, PreSum, PostSum;
    PostSumIsAt(data.post.value, epoch);
    if data.pre.Some? {
      PreSumIsAt(data.pre.value, current, epoch);
    } else {
      PreSumNone(current, epoch);
    }
  }

  /** An accepted change of total deltas leaves the stakes before the pipeline
      epoch as they were, and does not lower any before the unbonding epoch. */
  lemma {:induction false} StakesKeptUntilPipeline(params: PosParams, pre: Timeline<int>, post: Timeline<int>,
        current: nat, epoch: nat)
    requires TotalOk(params, Some(pre), post, current) && pre.lastUpdate <= current <= epoch
    requires params.pipelineLen <= params.unbondingLen
    ensures epoch < current + params.pipelineLen ==> At(post, epoch) == At(pre, epoch)
    ensures epoch < current + params.unbondingLen ==> At(post, epoch) >= At(pre, epoch)
    decreases epoch
  {
    hide PreSum, PostSum;
    if epoch < current + params.unbondingLen {
      assert TotalAllowed(params, Some(pre), post, current, epoch);
      if epoch > current {
        StakesKeptUntilPipeline(params, pre, post, current, epoch - 1);
      }
    }
  }

  // ---------- all changes ----------

  ghost function BondedSum(params: PosParams, changes: seq<Change>, v: Address): int {
    if changes == [] then 0
    else BondedSum(params, changes[..|changes| - 1], v) + BondedChange(params, changes[|changes| - 1], v)
  }

  ghost function UnbondedSum(params: PosParams, changes: seq<Change>, v: Address): int {
    if changes == [] then 0
    else UnbondedSum(params, changes[..|changes| - 1], v) + UnbondedChange(params, changes[|changes| - 1], v)
  }

  ghost function StakeSum(params: PosParams, changes: seq<Change>, v: Address, current: nat): int {
    if changes == [] then 0
    else
      var last := |changes| - 1;
      StakeSum(params, changes[..last], v, current) + StakeChange(params, changes[last], v, current)
  }

  ghost predicate AllOk(params: PosParams, changes: seq<Change>, current: nat) {
    forall i :: 0 <= i < |changes| ==> ChangeOk(params, changes[i], current)
  }

  lemma CreditAt(m: map<Address, int>, w: Address, x: Option<int>, v: Address)
    ensures ValueAt(Credit(m, w, x), v) == ValueAt(m, v) + if v == w then x.UnwrapOr(0) else 0
  {
  }

  lemma StepBonds(params: PosParams, current: nat, m: map<Address, int>, change: Change, v: Address)
    requires OkOf(params, current, change) && ChangeOk(params, change, current)
    ensures ValueAt(BondsAfter(params, current, m, change), v) == ValueAt(m, v) + BondedChange(params, change, v)
  {
    hide Contribution, Amount, AmountAllowed, Shaped, BondWorth, Credit, ValueAt;
    if change.BondChange? {
      NoSlashesPlain();
      ContributionIsChange(change.bond, BondWorth(change.slashes), StartRank, current, params.pipelineLen);
      CreditAt(m, change.id.validator, BondContribution(params, current, change.bond, change.slashes), v);
    }
  }

  lemma StepUnbonds(params: PosParams, current: nat, m: map<Address, int>, change: Change, v: Address)
    requires OkOf(params, current, change) && ChangeOk(params, change, current)
    ensures ValueAt(UnbondsAfter(params, current, m, change), v) == ValueAt(m, v) + UnbondedChange(params, change, v)
  {
    hide Contribution, Amount, Shaped, UnbondWorth, Credit, ValueAt;
    if change.UnbondChange? {
      NoSlashesPlain();
      ContributionIsChange(change.unbond, UnbondWorth(change.slashes), EndRank, current, params.unbondingLen);
      CreditAt(m, change.id.validator, UnbondContribution(params, current, change.unbond, change.slashes), v);
    }
  }

  lemma StepTotals(params: PosParams, current: nat, m: map<Address, int>, change: Change, v: Address)
    requires OkOf(params, current, change) && ChangeOk(params, change, current)
    ensures ValueAt(TotalsAfter(params, current, m, change), v) ==
      ValueAt(m, v) + StakeChange(params, change, v, current)
  {
    hide TotalAllowed, PreSum, PostSum, Credit, ValueAt, At;
    if change.TotalDeltasChange? && change.total.post.Some? {
      var end := current + params.unbondingLen;
      TotalIsChange(change.total, current, end);
      CreditAt(m, change.address,
        NonZero(PostSum(change.total.post.value, current, end) - PreSum(change.total.pre, current, end)), v);
    }
  }

  lemma {:induction false} CollectSums(params: PosParams, current: nat, changes: seq<Change>, v: Address)
    requires AllOk(params, changes, current) && Collect(params, current, changes).ok
    ensures var f := Collect(params, current, changes);
      && ValueAt(f.bonds, v) == BondedSum(params, changes, v)
      && ValueAt(f.unbonds, v) == UnbondedSum(params, changes, v)
      && ValueAt(f.totals, v) == StakeSum(params, changes, v, current)
    decreases |changes|
  {
    hide OkOf, BondsAfter, UnbondsAfter, TotalsAfter, StakesAfter, ExpectedAfter, PowersAfter, SetsAfter,
      TotalPowerAfter, NewcomersAfter, BalanceAfter, BondedChange, UnbondedChange, StakeChange, ChangeOk;
    if changes != [] {
      var before, last := changes[..|changes| - 1], changes[|changes| - 1];
      var f := Collect(params, current, before);
      CollectSums(params, current, before, v);
      StepBonds(params, current, f.bonds, last, v);
      StepUnbonds(params, current, f.unbonds, last, v);
      StepTotals(params, current, f.totals, last, v);
    }
  }

  /** In an accepted list of changes, every validator's stake changes by as much
      as the tokens bonded to it. */
  lemma StakesFollowBonds(params: PosParams, changes: seq<Change>, current: nat, order: seq<nat>, v: Address)
    requires AllOk(params, changes, current) && Accepts(params, changes, current, order)
    ensures StakeSum(params, changes, v, current) == BondedSum(params, changes, v)
  {
    hide Collect, AllOk, SetsChecked, PowersMatchStakes, StakesMatchPowers, TotalPowerChecked, SumOf, StakeSum,
      BondedSum, UnbondedSum;
    CollectSums(params, current, changes, v);
  }

  // ---------- the balance ----------

  ghost function BondedOf(params: PosParams, change: Change): int {
    if change.BondChange? then BondedChange(params, change, change.id.validator) else 0
  }

  ghost function UnbondedOf(params: PosParams, change: Change): int {
    if change.UnbondChange? then UnbondedChange(params, change, change.id.validator) else 0
  }

  ghost function BalanceOf(change: Change): int {
    if change.BalanceChange? then change.balance.post.UnwrapOr(0) - change.balance.pre.UnwrapOr(0) else 0
  }

  ghost function BondedInAll(params: PosParams, changes: seq<Change>): int {
    if changes == [] then 0
      else BondedInAll(params, changes[..|changes| - 1]) + BondedOf(params, changes[|changes| - 1])
  }

  ghost function UnbondedInAll(params: PosParams, changes: seq<Change>): int {
    if changes == [] then 0
      else UnbondedInAll(params, changes[..|changes| - 1]) + UnbondedOf(params, changes[|changes| - 1])
  }

  ghost function BalanceInAll(changes: seq<Change>): int {
    if changes == [] then 0 else BalanceInAll(changes[..|changes| - 1]) + BalanceOf(changes[|changes| - 1])
  }

  lemma CreditSum(m: map<Address, int>, v: Address, x: Option<int>)
    ensures SumOf(Credit(m, v, x)) == SumOf(m) + x.UnwrapOr(0)
  {
    if x.Some? {
      SumUpdate(m, v, ValueAt(m, v) + x.value);
    }
  }

  lemma StepBondsSum(params: PosParams, current: nat, m: map<Address, int>, change: Change)
    requires OkOf(params, current, change) && ChangeOk(params, change, current)
    ensures SumOf(BondsAfter(params, current, m, change)) == SumOf(m) + BondedOf(params, change)
  {
    hide Contribution, Amount, AmountAllowed, Shaped, BondWorth, Credit, SumOf;
    if change.BondChange? {
      NoSlashesPlain();
      ContributionIsChange(change.bond, BondWorth(change.slashes), StartRank, current, params.pipelineLen);
      CreditSum(m, change.id.validator, BondContribution(params, current, change.bond, change.slashes));
    }
  }

  lemma StepUnbondsSum(params: PosParams, current: nat, m: map<Address, int>, change: Change)
    requires OkOf(params, current, change) && ChangeOk(params, change, current)
    ensures SumOf(UnbondsAfter(params, current, m, change)) == SumOf(m) + UnbondedOf(params, change)
  {
    hide Contribution, Amount, Shaped, UnbondWorth, Credit, SumOf;
    if change.UnbondChange? {
      NoSlashesPlain();
      ContributionIsChange(change.unbond, UnbondWorth(change.slashes), EndRank, current, params.unbondingLen);
      CreditSum(m, change.id.validator, UnbondContribution(params, current, change.unbond, change.slashes));
    }
  }

  lemma {:induction false} CollectInAll(params: PosParams, current: nat, changes: seq<Change>)
    requires AllOk(params, changes, current) && Collect(params, current, changes).ok
    ensures var f := Collect(params, current, changes);
      && SumOf(f.bonds) == BondedInAll(params, changes)
      && SumOf(f.unbonds) == UnbondedInAll(params, changes)
      && f.balance == BalanceInAll(changes)
    decreases |changes|
  {
    hide BondsAfter, UnbondsAfter, TotalsAfter, StakesAfter, ExpectedAfter, PowersAfter, SetsAfter, TotalPowerAfter,
      NewcomersAfter, BondedOf, UnbondedOf, ChangeOk, SumOf, BondDataOk, TotalOk, PowerOk;
    SumOfNothing<Address>();
    if changes != [] {
      var before, last := changes[..|changes| - 1], changes[|changes| - 1];
      var f := Collect(params, current, before);
      CollectInAll(params, current, before);
      StepBondsSum(params, current, f.bonds, last);
      StepUnbondsSum(params, current, f.unbonds, last);
    }
  }

  /** In an accepted list of changes, the balance of the system changes by as much
      as the bonded and the unbonded tokens together. */
  lemma BalanceFollowsTokens(params: PosParams, changes: seq<Change>, current: nat, order: seq<nat>)
    requires AllOk(params, changes, current) && Accepts(params, changes, current, order)
    ensures BalanceInAll(changes) == BondedInAll(params, changes) + UnbondedInAll(params, changes)
  {
    hide Collect, AllOk, SetsChecked, PowersMatchStakes, StakesMatchPowers, TotalPowerChecked, SumOf,
      TotalsMatchBonds;
    CollectInAll(params, current, changes);
  }

  lemma {:induction false} EachOk(params: PosParams, current: nat, changes: seq<Change>, i: nat)
    requires Collect(params, current, changes).ok && i < |changes|
    ensures OkOf(params, current, changes[i])
    decreases |changes|
  {
    hide OkOf, BondsAfter, UnbondsAfter, TotalsAfter, StakesAfter, ExpectedAfter, PowersAfter, SetsAfter,
      TotalPowerAfter, NewcomersAfter, BalanceAfter;
    if i < |changes| - 1 {
      EachOk(params, current, changes[..|changes| - 1], i);
    }
  }

  /** In an accepted list of changes, no stake changes before the pipeline epoch,
      and none is lowered before the unbonding epoch. */
  lemma NoEarlyStakeChange(params: PosParams, changes: seq<Change>, current: nat, order: seq<nat>, i: nat, epoch: nat)
    requires AllOk(params, changes, current) && Accepts(params, changes, current, order)
    requires params.pipelineLen <= params.unbondingLen
    requires i < |changes| && changes[i].TotalDeltasChange? && changes[i].total.pre.Some? && current <= epoch
    ensures changes[i].total.post.Some?
    ensures var pre, post := changes[i].total.pre.value, changes[i].total.post.value;
      && (epoch < current + params.pipelineLen ==> At(post, epoch) == At(pre, epoch))
      && (epoch < current + params.unbondingLen ==> At(post, epoch) >= At(pre, epoch))
  {
    hide Collect, SetsChecked, PowersMatchStakes, StakesMatchPowers, TotalPowerChecked, SumOf, TotalsMatchBonds,
      TotalOk;
    EachOk(params, current, changes, i);
    assert ChangeOk(params, changes[i], current);
    StakesKeptUntilPipeline(params, changes[i].total.pre.value, changes[i].total.post.value, current, epoch);
  }
}

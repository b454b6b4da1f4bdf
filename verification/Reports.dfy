/**
 The changes between two states as they are reported to the check, in any order,
 and what the check collects from them.
 */
module Reports {
  import opened Options
  import opened Timelines
  import opened Sums
  import opened Params
  import opened ValidatorSets
  import opened Ledger
  import opened DeltaMaps
  import opened Validation
  import opened ValidationSound
  import opened WriterAgreement
  import opened ReportedChanges

  /** The storage keys of the staking data. */
  datatype Key =
    | BalanceKey
    | BondKey(id: BondId)
    | UnbondKey(id: BondId)
    | TotalKey(validator: Address)
    | PowerKey(validator: Address)
    | SetsKey
    | TotalPowerKey

  function KeyOf(change: Change): Key {
    match change
    case BalanceChange(_) => BalanceKey
    case BondChange(id, _, _) => BondKey(id)
    case UnbondChange(id, _, _) => UnbondKey(id)
    case TotalDeltasChange(v, _) => TotalKey(v)
    case VotingPowerChange(v, _) => PowerKey(v)
    case ValidatorSetChange(_) => SetsKey
    case TotalPowerChange(_) => TotalPowerKey
  }

  /** The change of the data under one key between two states. */
  ghost function Reported(s: Pos, t: Pos, key: Key): Change {
    match key
    case BalanceKey => BalanceChange(Data(Some(s.balance), Some(t.balance)))
    case BondKey(id) => BondChange(id, BondData(s, t, id), SlashesOf(t, id.validator))
    case UnbondKey(id) => UnbondChange(id, UnbondData(s, t, id), SlashesOf(t, id.validator))
    case TotalKey(v) => TotalDeltasChange(v, Data(Find(s.totals, v), Find(t.totals, v)))
    case PowerKey(v) => VotingPowerChange(v, Data(Find(s.powers, v), Find(t.powers, v)))
    case SetsKey => ValidatorSetChange(Data(Some(s.sets), Some(t.sets)))
    case TotalPowerKey => TotalPowerChange(Data(Some(s.totalPower), Some(t.totalPower)))
  }

  function KeysIn(changes: seq<Change>): set<Key> {
    if changes == [] then {} else KeysIn(changes[..|changes| - 1]) + {KeyOf(changes[|changes| - 1])}
  }

  /** The changes are those between the states, each key at most once. */
  ghost predicate Genuine(changes: seq<Change>, s: Pos, t: Pos) {
    && (forall i :: 0 <= i < |changes| ==> changes[i] == Reported(s, t, KeyOf(changes[i])))
    && (forall i, j :: 0 <= i < j < |changes| ==> KeyOf(changes[i]) != KeyOf(changes[j]))
  }

  lemma {:induction false} KeyNotYet(changes: seq<Change>, n: nat, i: nat)
    requires i <= n < |changes| && forall j, k :: 0 <= j < k < |changes| ==> KeyOf(changes[j]) != KeyOf(changes[k])
    ensures KeyOf(changes[n]) !in KeysIn(changes[..i])
    decreases i
  {
    if i > 0 {
      KeyNotYet(changes, n, i - 1);
      assert changes[..i][..i - 1] == changes[..i - 1];
    }
  }

  // ---------- tokens ----------

  ghost function BondOf(s: Pos, t: Pos, id: BondId): Option<int> {
    BondContribution(s.params, s.epoch, BondData(s, t, id), SlashesOf(t, id.validator))
  }

  ghost function UnbondOf(s: Pos, t: Pos, id: BondId): Option<int> {
    UnbondContribution(s.params, s.epoch, UnbondData(s, t, id), SlashesOf(t, id.validator))
  }

  /** What the reported bonds contribute, to one validator and to all. */
  ghost function BondsTo(s: Pos, t: Pos, keys: set<Key>, v: Address): map<BondId, int> {
    map k | k in keys && k.BondKey? && k.id.validator == v :: k.id := BondOf(s, t, k.id).UnwrapOr(0)
  }

  ghost function AllBonds(s: Pos, t: Pos, keys: set<Key>): map<BondId, int> {
    map k | k in keys && k.BondKey? :: k.id := BondOf(s, t, k.id).UnwrapOr(0)
  }

  ghost function UnbondsTo(s: Pos, t: Pos, keys: set<Key>, v: Address): map<BondId, int> {
    map k | k in keys && k.UnbondKey? && k.id.validator == v :: k.id := UnbondOf(s, t, k.id).UnwrapOr(0)
  }

  ghost function AllUnbonds(s: Pos, t: Pos, keys: set<Key>): map<BondId, int> {
    map k | k in keys && k.UnbondKey? :: k.id := UnbondOf(s, t, k.id).UnwrapOr(0)
  }

  /** Some bond of the validator contributes. */
  ghost predicate Contributes(s: Pos, t: Pos, keys: set<Key>, v: Address) {
    exists k :: k in keys && k.BondKey? && k.id.validator == v && BondOf(s, t, k.id).Some?
  }

  ghost predicate SummedBonds(f: Findings, s: Pos, t: Pos, keys: set<Key>) {
    && (forall v :: ValueAt(f.bonds, v) == SumOf(BondsTo(s, t, keys, v)))
    && (forall v :: v in f.bonds <==> Contributes(s, t, keys, v))
    && SumOf(f.bonds) == SumOf(AllBonds(s, t, keys))
  }

  ghost predicate SummedUnbonds(f: Findings, s: Pos, t: Pos, keys: set<Key>) {
    && (forall v :: ValueAt(f.unbonds, v) == SumOf(UnbondsTo(s, t, keys, v)))
    && SumOf(f.unbonds) == SumOf(AllUnbonds(s, t, keys))
  }

  lemma CreditAll(m: map<Address, int>, w: Address, x: Option<int>, v: Address)
    ensures ValueAt(Credit(m, w, x), v) == ValueAt(m, v) + if v == w then x.UnwrapOr(0) else 0
    ensures v in Credit(m, w, x) <==> v in m || (v == w && x.Some?)
    ensures SumOf(Credit(m, w, x)) == SumOf(m) + x.UnwrapOr(0)
  {
    CreditSum(m, w, x);
  }

  lemma OneMoreBond(s: Pos, t: Pos, keys: set<Key>, id: BondId, v: Address)
    requires BondKey(id) !in keys
    ensures SumOf(BondsTo(s, t, keys + {BondKey(id)}, v)) ==
      SumOf(BondsTo(s, t, keys, v)) + if v == id.validator then BondOf(s, t, id).UnwrapOr(0) else 0
    ensures SumOf(AllBonds(s, t, keys + {BondKey(id)})) == SumOf(AllBonds(s, t, keys)) + BondOf(s, t, id).UnwrapOr(0)
  {
    hide SumOf, BondOf;
    var x, more := BondOf(s, t, id).UnwrapOr(0), keys + {BondKey(id)};
    var m, n := BondsTo(s, t, keys, v), AllBonds(s, t, keys);
    assert AllBonds(s, t, more) == n[id := x];
    SumUpdate(n, id, x);
    assert BondsTo(s, t, more, v) == if v == id.validator then m[id := x] else m;
    SumUpdate(m, id, x);
  }

  lemma OneMoreUnbond(s: Pos, t: Pos, keys: set<Key>, id: BondId, v: Address)
    requires UnbondKey(id) !in keys
    ensures SumOf(UnbondsTo(s, t, keys + {UnbondKey(id)}, v)) ==
      SumOf(UnbondsTo(s, t, keys, v)) + if v == id.validator then UnbondOf(s, t, id).UnwrapOr(0) else 0
    ensures SumOf(AllUnbonds(s, t, keys + {UnbondKey(id)})) ==
      SumOf(AllUnbonds(s, t, keys)) + UnbondOf(s, t, id).UnwrapOr(0)
  {
    hide SumOf, UnbondOf;
    var x, more := UnbondOf(s, t, id).UnwrapOr(0), keys + {UnbondKey(id)};
    var m, n := UnbondsTo(s, t, keys, v), AllUnbonds(s, t, keys);
    assert AllUnbonds(s, t, more) == n[id := x];
    SumUpdate(n, id, x);
    assert UnbondsTo(s, t, more, v) == if v == id.validator then m[id := x] else m;
    SumUpdate(m, id, x);
  }

  lemma OtherBonds(s: Pos, t: Pos, keys: set<Key>, key: Key, v: Address)
    ensures !key.BondKey? ==>
      && BondsTo(s, t, keys + {key}, v) == BondsTo(s, t, keys, v)
        && AllBonds(s, t, keys + {key}) == AllBonds(s, t, keys)
      && (Contributes(s, t, keys + {key}, v) <==> Contributes(s, t, keys, v))
    ensures !key.UnbondKey? ==>
      UnbondsTo(s, t, keys + {key}, v) == UnbondsTo(s, t, keys, v)
        && AllUnbonds(s, t, keys + {key}) == AllUnbonds(s, t, keys)
  {
    hide BondOf, UnbondOf;
  }

  lemma ContributesMore(s: Pos, t: Pos, keys: set<Key>, id: BondId, v: Address)
    ensures Contributes(s, t, keys + {BondKey(id)}, v) <==>
      Contributes(s, t, keys, v) || (v == id.validator && BondOf(s, t, id).Some?)
  {
    hide BondOf;
    if Contributes(s, t, keys, v) {
      var k :| k in keys && k.BondKey? && k.id.validator == v && BondOf(s, t, k.id).Some?;
      assert k in keys + {BondKey(id)};
    }
    if v == id.validator && BondOf(s, t, id).Some? {
      assert BondKey(id) in keys + {BondKey(id)};
    }
  }

  lemma BondsStep(f: Findings, s: Pos, t: Pos, keys: set<Key>, key: Key)
    requires SummedBonds(f, s, t, keys) && key !in keys
    ensures SummedBonds(Step(s.params, s.epoch, f, Reported(s, t, key)), s, t, keys + {key})
  {
    hide OkOf, BalanceAfter, UnbondsAfter, TotalsAfter, StakesAfter, ExpectedAfter, PowersAfter, TotalPowerAfter,
      NewcomersAfter, SetsAfter, BondContribution, SlashesOf, BondData, UnbondData, Find, SumOf, BondsTo, AllBonds,
      Contributes, Credit;
    var g := Step(s.params, s.epoch, f, Reported(s, t, key));
    forall v
      ensures ValueAt(g.bonds, v) == SumOf(BondsTo(s, t, keys + {key}, v))
      ensures (v in g.bonds <==> Contributes(s, t, keys + {key}, v))
    {
      BondsStepAt(f.bonds, g.bonds, s, t, keys, key, v);
    }
    BondsStepAt(f.bonds, g.bonds, s, t, keys, key, 0);
  }

  lemma BondsStepAt(m: map<Address, int>, n: map<Address, int>, s: Pos, t: Pos, keys: set<Key>, key: Key, v: Address)
    requires key !in keys && n == BondsAfter(s.params, s.epoch, m, Reported(s, t, key))
    requires ValueAt(m, v) == SumOf(BondsTo(s, t, keys, v)) && SumOf(m) == SumOf(AllBonds(s, t, keys))
    requires v in m <==> Contributes(s, t, keys, v)
    ensures ValueAt(n, v) == SumOf(BondsTo(s, t, keys + {key}, v)) && SumOf(n) == SumOf(AllBonds(s, t, keys + {key}))
    ensures v in n <==> Contributes(s, t, keys + {key}, v)
  {
    hide BondContribution, SlashesOf, BondData, UnbondData, Find, SumOf, BondsTo, AllBonds, Contributes, Credit;
    OtherBonds(s, t, keys, key, v);
    if key.BondKey? {
      CreditAll(m, key.id.validator, BondOf(s, t, key.id), v);
      OneMoreBond(s, t, keys, key.id, v);
      ContributesMore(s, t, keys, key.id, v);
    }
  }

  lemma UnbondsStep(f: Findings, s: Pos, t: Pos, keys: set<Key>, key: Key)
    requires SummedUnbonds(f, s, t, keys) && key !in keys
    ensures SummedUnbonds(Step(s.params, s.epoch, f, Reported(s, t, key)), s, t, keys + {key})
  {
    hide OkOf, BalanceAfter, BondsAfter, TotalsAfter, StakesAfter, ExpectedAfter, PowersAfter, TotalPowerAfter,
      NewcomersAfter, SetsAfter, UnbondContribution, SlashesOf, BondData, UnbondData, Find, SumOf, UnbondsTo,
      AllUnbonds, Credit;
    var g := Step(s.params, s.epoch, f, Reported(s, t, key));
    forall v ensures ValueAt(g.unbonds, v) == SumOf(UnbondsTo(s, t, keys + {key}, v)) {
      UnbondsStepAt(f.unbonds, g.unbonds, s, t, keys, key, v);
    }
    UnbondsStepAt(f.unbonds, g.unbonds, s, t, keys, key, 0);
  }

  lemma UnbondsStepAt(m: map<Address, int>, n: map<Address, int>, s: Pos, t: Pos, keys: set<Key>, key: Key, v: Address)
    requires key !in keys && n == UnbondsAfter(s.params, s.epoch, m, Reported(s, t, key))
    requires ValueAt(m, v) == SumOf(UnbondsTo(s, t, keys, v)) && SumOf(m) == SumOf(AllUnbonds(s, t, keys))
    ensures ValueAt(n, v) == SumOf(UnbondsTo(s, t, keys + {key}, v))
    ensures SumOf(n) == SumOf(AllUnbonds(s, t, keys + {key}))
  {
    hide UnbondContribution, SlashesOf, BondData, UnbondData, Find, SumOf, UnbondsTo, AllUnbonds, Credit;
    OtherBonds(s, t, keys, key, v);
    if key.UnbondKey? {
      CreditAll(m, key.id.validator, UnbondOf(s, t, key.id), v);
      OneMoreUnbond(s, t, keys, key.id, v);
    }
  }

  // ---------- stakes ----------

  /** The reported stake data are of validators known before and after. */
  ghost predicate Known(s: Pos, t: Pos, keys: set<Key>) {
    && (forall v :: TotalKey(v) in keys ==> v in s.totals && v in t.totals)
    && (forall v :: PowerKey(v) in keys ==> v in s.powers && v in t.powers)
  }

  /** The change of a validator's stake at the end of the window. */
  ghost function Net(s: Pos, t: Pos, v: Address): int
    requires v in s.totals && v in t.totals
  {
    var end := s.epoch + s.params.unbondingLen;
    PostSum(t.totals[v], s.epoch, end) - PreSum(Some(s.totals[v]), s.epoch, end)
  }

  ghost function StakesFor(s: Pos, t: Pos, v: Address): map<(nat, Address), (nat, nat)>
    requires v in s.totals && v in t.totals
  {
    StakeEntries(v, Some(s.totals[v]), t.totals[v], s.epoch, s.epoch + s.params.unbondingLen)
  }

  ghost predicate SummedTotals(f: Findings, s: Pos, t: Pos, keys: set<Key>)
    requires Known(s, t, keys)
  {
    && (forall v :: v in f.totals <==> TotalKey(v) in keys && Net(s, t, v) != 0)
    && (forall v :: v in f.totals ==> f.totals[v] == Net(s, t, v))
  }

  ghost predicate SummedStakes(f: Findings, s: Pos, t: Pos, keys: set<Key>)
    requires Known(s, t, keys)
  {
    && (forall k :: k in f.stakes <==> TotalKey(k.1) in keys && k in StakesFor(s, t, k.1))
    && (forall k :: k in f.stakes ==> f.stakes[k] == StakesFor(s, t, k.1)[k])
    && f.newcomers == {}
  }

  lemma OwnStakes(s: Pos, t: Pos, v: Address)
    requires v in s.totals && v in t.totals
    ensures forall k :: k in StakesFor(s, t, v) ==> k.1 == v
  {
    hide PreSum, PostSum, DeltaAt;
  }

  lemma TotalsStep(f: Findings, s: Pos, t: Pos, keys: set<Key>, key: Key)
    requires Known(s, t, keys + {key}) && Known(s, t, keys) && SummedTotals(f, s, t, keys) && key !in keys
    ensures SummedTotals(Step(s.params, s.epoch, f, Reported(s, t, key)), s, t, keys + {key})
  {
    hide OkOf, BalanceAfter, BondsAfter, UnbondsAfter, StakesAfter, ExpectedAfter, PowersAfter, TotalPowerAfter,
      NewcomersAfter, SetsAfter, SlashesOf, BondData, UnbondData, Net;
    if key.TotalKey? {
      var v := key.validator;
      assert TotalKey(v) in keys + {key};
      OwnTotals(f.totals, s, t, v);
    }
  }

  lemma OwnTotals(m: map<Address, int>, s: Pos, t: Pos, v: Address)
    requires v in s.totals && v in t.totals
    ensures TotalsAfter(s.params, s.epoch, m, Reported(s, t, TotalKey(v))) == Credit(m, v, NonZero(Net(s, t, v)))
  {
    hide PreSum, PostSum, Credit;
  }

  lemma StakesStep(f: Findings, s: Pos, t: Pos, keys: set<Key>, key: Key)
    requires Known(s, t, keys + {key}) && Known(s, t, keys) && SummedStakes(f, s, t, keys) && key !in keys
    ensures SummedStakes(Step(s.params, s.epoch, f, Reported(s, t, key)), s, t, keys + {key})
  {
    hide OkOf, BalanceAfter, BondsAfter, UnbondsAfter, TotalsAfter, ExpectedAfter, PowersAfter, TotalPowerAfter,
      SetsAfter, SlashesOf, BondData, UnbondData, StakeEntries;
    if key.TotalKey? {
      var v := key.validator;
      assert TotalKey(v) in keys + {key};
      OwnStakes(s, t, v);
      assert Step(s.params, s.epoch, f, Reported(s, t, key)).stakes == f.stakes + StakesFor(s, t, v);
    } else if key.PowerKey? {
      assert PowerKey(key.validator) in keys + {key};
    }
  }

  // ---------- voting powers ----------

  ghost function PowersFor(s: Pos, t: Pos, v: Address): map<(nat, Address), nat>
    requires v in t.powers
  {
    PowerEntries(v, t.powers[v], s.epoch, s.epoch + s.params.unbondingLen)
  }

  ghost function DiffsFor(s: Pos, t: Pos, v: Address): map<nat, int>
    requires v in s.powers && v in t.powers
  {
    PowerDiffs(Some(s.powers[v]), t.powers[v], s.epoch, s.epoch + s.params.unbondingLen)
  }

  /** The differences of the reported voting powers at an epoch. */
  ghost function DiffsAt(s: Pos, t: Pos, keys: set<Key>, e: nat): map<Address, int>
    requires Known(s, t, keys)
  {
    map k | k in keys && k.PowerKey? :: k.validator := ValueAt(DiffsFor(s, t, k.validator), e)
  }

  ghost predicate SummedPowers(f: Findings, s: Pos, t: Pos, keys: set<Key>)
    requires Known(s, t, keys)
  {
    && (forall k :: k in f.powers <==> PowerKey(k.1) in keys && k in PowersFor(s, t, k.1))
    && (forall k :: k in f.powers ==> f.powers[k] == PowersFor(s, t, k.1)[k])
    && (forall e :: ValueAt(f.expected, e) == SumOf(DiffsAt(s, t, keys, e)))
  }

  ghost predicate SummedRest(f: Findings, s: Pos, t: Pos, keys: set<Key>) {
    && f.balance == (if BalanceKey in keys then t.balance - s.balance else 0)
    && f.sets == (if SetsKey in keys then Some((s.sets, t.sets)) else None)
    && f.totalPower == (if TotalPowerKey in keys then TotalPowerAfter(s.params, map[], Reported(s, t, TotalPowerKey))
      else map[])
  }

  lemma OwnPowers(s: Pos, t: Pos, v: Address)
    requires v in t.powers
    ensures forall k :: k in PowersFor(s, t, v) ==> k.1 == v
  {
    hide PostSum, DeltaAt;
  }

  lemma OneMoreDiff(s: Pos, t: Pos, keys: set<Key>, v: Address, e: nat)
    requires Known(s, t, keys + {PowerKey(v)}) && Known(s, t, keys) && PowerKey(v) !in keys && v in s.powers
    requires v in t.powers
    ensures SumOf(DiffsAt(s, t, keys + {PowerKey(v)}, e)) ==
      SumOf(DiffsAt(s, t, keys, e)) + ValueAt(DiffsFor(s, t, v), e)
  {
    hide SumOf, DiffsFor;
    var m, x := DiffsAt(s, t, keys, e), ValueAt(DiffsFor(s, t, v), e);
    assert DiffsAt(s, t, keys + {PowerKey(v)}, e) == m[v := x];
    SumUpdate(m, v, x);
  }

  lemma PowersStep(f: Findings, s: Pos, t: Pos, keys: set<Key>, key: Key)
    requires Known(s, t, keys + {key}) && Known(s, t, keys) && SummedPowers(f, s, t, keys) && key !in keys
    ensures SummedPowers(Step(s.params, s.epoch, f, Reported(s, t, key)), s, t, keys + {key})
  {
    hide OkOf, BalanceAfter, BondsAfter, UnbondsAfter, TotalsAfter, StakesAfter, TotalPowerAfter, NewcomersAfter,
      SetsAfter, SlashesOf, BondData, UnbondData, PowerEntries, PowerDiffs, SumOf, DiffsAt;
    var g := Step(s.params, s.epoch, f, Reported(s, t, key));
    if key.PowerKey? {
      var v := key.validator;
      assert PowerKey(v) in keys + {key};
      OwnPowers(s, t, v);
      assert g.powers == f.powers + PowersFor(s, t, v);
      forall e ensures ValueAt(g.expected, e) == SumOf(DiffsAt(s, t, keys + {key}, e)) {
        OneMoreDiff(s, t, keys, v, e);
        assert ValueAt(f.expected, e) == SumOf(DiffsAt(s, t, keys, e));
        AddedDiffs(f.expected, DiffsFor(s, t, v), e);
      }
    } else {
      forall e ensures ValueAt(g.expected, e) == SumOf(DiffsAt(s, t, keys + {key}, e)) {
        assert ValueAt(f.expected, e) == SumOf(DiffsAt(s, t, keys, e));
        SameDiffs(s, t, keys, key, e);
      }
    }
  }

  lemma AddedDiffs(m: map<nat, int>, d: map<nat, int>, e: nat)
    ensures ValueAt(AddDiffs(m, d), e) == ValueAt(m, e) + ValueAt(d, e)
  {
  }

  lemma SameDiffs(s: Pos, t: Pos, keys: set<Key>, key: Key, e: nat)
    requires Known(s, t, keys + {key}) && Known(s, t, keys) && !key.PowerKey?
    ensures DiffsAt(s, t, keys + {key}, e) == DiffsAt(s, t, keys, e)
  {
    hide DiffsFor;
  }

  lemma RestStep(f: Findings, s: Pos, t: Pos, keys: set<Key>, key: Key)
    requires SummedRest(f, s, t, keys) && key !in keys
    ensures SummedRest(Step(s.params, s.epoch, f, Reported(s, t, key)), s, t, keys + {key})
  {
    hide OkOf, BondsAfter, UnbondsAfter, TotalsAfter, StakesAfter, ExpectedAfter, PowersAfter, NewcomersAfter,
      SlashesOf, BondData, UnbondData, Find, TotalPowerDiffs;
  }

  // ---------- all changes ----------

  ghost predicate Summed(f: Findings, s: Pos, t: Pos, keys: set<Key>)
    requires Known(s, t, keys)
  {
    && SummedBonds(f, s, t, keys) && SummedUnbonds(f, s, t, keys) && SummedTotals(f, s, t, keys)
      && SummedStakes(f, s, t, keys)
    && SummedPowers(f, s, t, keys) && SummedRest(f, s, t, keys)
  }

  lemma NothingSummed(s: Pos, t: Pos)
    ensures Known(s, t, {}) && Summed(NOTHING, s, t, {})
  {
    hide SumOf, BondOf, UnbondOf, DiffsFor, StakesFor, PowersFor;
    SumOfNothing<Address>();
    SumOfNothing<BondId>();
    forall v ensures BondsTo(s, t, {}, v) == map[] && UnbondsTo(s, t, {}, v) == map[] {
    }
    assert AllBonds(s, t, {}) == map[] && AllUnbonds(s, t, {}) == map[];
    forall e ensures DiffsAt(s, t, {}, e) == map[] {
    }
  }

  lemma {:induction false} CollectGenuine(changes: seq<Change>, s: Pos, t: Pos)
    requires Genuine(changes, s, t) && Known(s, t, KeysIn(changes))
    ensures Summed(Collect(s.params, s.epoch, changes), s, t, KeysIn(changes))
    decreases |changes|
  {
    hide SummedBonds, SummedUnbonds, SummedTotals, SummedStakes, SummedPowers, SummedRest, Step, Reported;
    if changes == [] {
      NothingSummed(s, t);
    } else {
      var before, last := changes[..|changes| - 1], changes[|changes| - 1];
      CollectGenuine(before, s, t);
      KeyNotYet(changes, |changes| - 1, |changes| - 1);
      var f, keys, key := Collect(s.params, s.epoch, before), KeysIn(before), KeyOf(last);
      BondsStep(f, s, t, keys, key);
      UnbondsStep(f, s, t, keys, key);
      TotalsStep(f, s, t, keys, key);
      StakesStep(f, s, t, keys, key);
      PowersStep(f, s, t, keys, key);
      RestStep(f, s, t, keys, key);
    }
  }

  /** No error is found in the changes exactly when there is none in any of them. */
  lemma {:induction false} CollectOk(changes: seq<Change>, s: Pos, t: Pos)
    requires Genuine(changes, s, t)
    ensures Collect(s.params, s.epoch, changes).ok <==>
      forall k :: k in KeysIn(changes) ==> OkOf(s.params, s.epoch, Reported(s, t, k))
    decreases |changes|
  {
    hide OkOf, BondsAfter, UnbondsAfter, TotalsAfter, StakesAfter, ExpectedAfter, PowersAfter, TotalPowerAfter,
      NewcomersAfter, SetsAfter, BalanceAfter, Reported;
    if changes != [] {
      CollectOk(changes[..|changes| - 1], s, t);
    }
  }
}

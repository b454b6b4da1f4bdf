/**
 A list of changes on which the verdict of the check depends on the order in
 which a hash map is visited: a bond of one token whose total deltas have, beside
 the entry that they need, an entry of zero at the end of the window, while the
 voting power has none there.
 */
module OrderExample {
  import opened Options
  import opened Timelines
  import opened Sums
  import opened Params
  import opened ValidatorSets
  import opened Ledger
  import opened Validation
  import opened ValidationSound
  import opened CheckOrder
  import opened Checker
  import opened DeltaMaps
  import opened BondInvariant
  import opened Solvency

  const PARAMS := PosParams(10, 2, 3, 10_000, 0, 0)
  const TOKEN: nat := 1_000_000
  const V: Address := 7
  const NOW: nat := 10

  const TOTAL_PRE: Timeline<int> := Timeline(NOW, [Some(TOKEN)])
  const TOTAL_POST: Timeline<int> := Timeline(NOW, [Some(TOKEN), None, Some(TOKEN), Some(0)])
  const POWER_PRE: Timeline<int> := Timeline(NOW, [Some(1)])
  const POWER_POST: Timeline<int> := Timeline(NOW, [Some(1), None, Some(1), None])
  const ONE := ValidatorSet({Weighted(1, V)}, {})
  const TWO := ValidatorSet({Weighted(2, V)}, {})
  const SETS_PRE: Timeline<ValidatorSet> := Timeline(NOW, [Some(ONE)])
  const SETS_POST: Timeline<ValidatorSet> := Timeline(NOW, [Some(ONE), None, Some(TWO), None])
  const NEW_BOND: Bond := map[12 := TOKEN]
  const BOND_POST: Timeline<Bond> := Timeline(NOW, [None, None, Some(NEW_BOND)])

  const TOTAL: Change := TotalDeltasChange(V, Data(Some(TOTAL_PRE), Some(TOTAL_POST)))
  const POWER: Change := VotingPowerChange(V, Data(Some(POWER_PRE), Some(POWER_POST)))
  const SETS: Change := ValidatorSetChange(Data(Some(SETS_PRE), Some(SETS_POST)))
  const TOTAL_POWER: Change := TotalPowerChange(Data(Some(POWER_PRE), Some(POWER_POST)))
  const BOND: Change := BondChange(BondId(V, V), Data(None, Some(BOND_POST)), [])
  const BALANCE: Change := BalanceChange(Data(Some(0), Some(TOKEN)))

  const CHANGES: seq<Change> := [TOTAL, POWER, SETS, TOTAL_POWER, BOND, BALANCE]

  // ---------- the stakes and voting powers of the example ----------

  lemma SumsOf()
    ensures PreSum(Some(TOTAL_PRE), NOW, 10) == TOKEN && PostSum(TOTAL_POST, NOW, 10) == TOKEN
    ensures PreSum(Some(TOTAL_PRE), NOW, 11) == TOKEN && PostSum(TOTAL_POST, NOW, 11) == TOKEN
    ensures PreSum(Some(TOTAL_PRE), NOW, 12) == TOKEN && PostSum(TOTAL_POST, NOW, 12) == 2 * TOKEN
    ensures PreSum(Some(TOTAL_PRE), NOW, 13) == TOKEN && PostSum(TOTAL_POST, NOW, 13) == 2 * TOKEN
    ensures PostSum(POWER_POST, NOW, 10) == 1 && PostSum(POWER_POST, NOW, 12) == 2
  {
    assert At(TOTAL_PRE, NOW) == TOKEN;
    assert PreSum(Some(TOTAL_PRE), NOW, 11) == PreSum(Some(TOTAL_PRE), NOW, 10) + Opening(Some(TOTAL_PRE), NOW, 11);
    assert PreSum(Some(TOTAL_PRE), NOW, 12) == PreSum(Some(TOTAL_PRE), NOW, 11) + Opening(Some(TOTAL_PRE), NOW, 12);
    assert PreSum(Some(TOTAL_PRE), NOW, 13) == PreSum(Some(TOTAL_PRE), NOW, 12) + Opening(Some(TOTAL_PRE), NOW, 13);
    assert PostSum(TOTAL_POST, NOW, 11) == PostSum(TOTAL_POST, NOW, 10) + Delta(TOTAL_POST, 11);
    assert PostSum(TOTAL_POST, NOW, 12) == PostSum(TOTAL_POST, NOW, 11) + Delta(TOTAL_POST, 12);
    assert PostSum(TOTAL_POST, NOW, 13) == PostSum(TOTAL_POST, NOW, 12) + Delta(TOTAL_POST, 13);
    assert PostSum(POWER_POST, NOW, 11) == PostSum(POWER_POST, NOW, 10) + Delta(POWER_POST, 11);
    assert PostSum(POWER_POST, NOW, 12) == PostSum(POWER_POST, NOW, 11) + Delta(POWER_POST, 12);
  }

  lemma PowersOf()
    ensures VotingPower(PARAMS, TOKEN) == 1 && VotingPower(PARAMS, 2 * TOKEN) == 2
  {
  }

  ghost function StakesFound(): map<(nat, Address), (nat, nat)> {
    map[(10, V) := (TOKEN, TOKEN), (12, V) := (TOKEN, 2 * TOKEN), (13, V) := (TOKEN, 2 * TOKEN)]
  }

  ghost function PowersFound(): map<(nat, Address), nat> {
    map[(10, V) := 1, (12, V) := 2]
  }

  lemma StakesAre()
    ensures StakeEntries(V, Some(TOTAL_PRE), TOTAL_POST, NOW, 13) == StakesFound()
  {
    hide PreSum, PostSum, StakeEntries, StakesBefore;
    SumsOf();
    NoStakesBefore(V, Some(TOTAL_PRE), TOTAL_POST, NOW);
    StakesNext(V, Some(TOTAL_PRE), TOTAL_POST, NOW, 10);
    StakesNext(V, Some(TOTAL_PRE), TOTAL_POST, NOW, 11);
    StakesNext(V, Some(TOTAL_PRE), TOTAL_POST, NOW, 12);
    StakesNext(V, Some(TOTAL_PRE), TOTAL_POST, NOW, 13);
    StakesWhole(V, Some(TOTAL_PRE), TOTAL_POST, NOW, 13);
  }

  lemma PowersAre()
    ensures PowerEntries(V, POWER_POST, NOW, 13) == PowersFound()
  {
    hide PostSum, PowerEntries;
    SumsOf();
    PowersNext(V, POWER_POST, NOW, 10);
    PowersNext(V, POWER_POST, NOW, 11);
    PowersNext(V, POWER_POST, NOW, 12);
    PowersNext(V, POWER_POST, NOW, 13);
  }

  lemma DiffsAre()
    ensures PowerDiffs(Some(POWER_PRE), POWER_POST, NOW, 13) == map[12 := 1]
  {
    hide PowerDiffs;
    assert At(POWER_PRE, NOW) == 1;
    DiffsNext(Some(POWER_PRE), POWER_POST, NOW, 10);
    DiffsNext(Some(POWER_PRE), POWER_POST, NOW, 11);
    DiffsNext(Some(POWER_PRE), POWER_POST, NOW, 12);
    DiffsNext(Some(POWER_PRE), POWER_POST, NOW, 13);
  }

  /** The total voting power has the same deltas, read at every epoch. */
  lemma TotalDiffsAre()
    ensures TotalPowerDiffs(POWER_PRE, POWER_POST, NOW, 13) == map[12 := 1]
  {
    assert At(POWER_PRE, NOW) == 1;
    assert Delta(POWER_POST, 10) == Opening(Some(POWER_PRE), NOW, 10);
    assert Delta(POWER_POST, 11) == Opening(Some(POWER_PRE), NOW, 11);
    assert Delta(POWER_POST, 12) == 1 && Opening(Some(POWER_PRE), NOW, 12) == 0;
    assert Delta(POWER_POST, 13) == Opening(Some(POWER_PRE), NOW, 13);
  }

  // ---------- what the check finds ----------

  lemma OneMore(changes: seq<Change>, change: Change)
    ensures Collect(PARAMS, NOW, changes + [change]) == Step(PARAMS, NOW, Collect(PARAMS, NOW, changes), change)
  {
    hide Step;
    assert (changes + [change])[..|changes|] == changes;
  }

  lemma CollectAll()
    ensures Collect(PARAMS, NOW, CHANGES) ==
      var f := Step(PARAMS, NOW, Step(PARAMS, NOW, Step(PARAMS, NOW, NOTHING, TOTAL), POWER), SETS);
      Step(PARAMS, NOW, Step(PARAMS, NOW, Step(PARAMS, NOW, f, TOTAL_POWER), BOND), BALANCE)
  {
    hide Step;
    assert Collect(PARAMS, NOW, []) == NOTHING;
    OneMore([], TOTAL);
    OneMore([TOTAL], POWER);
    OneMore([TOTAL, POWER], SETS);
    OneMore([TOTAL, POWER, SETS], TOTAL_POWER);
    OneMore([TOTAL, POWER, SETS, TOTAL_POWER], BOND);
    OneMore([TOTAL, POWER, SETS, TOTAL_POWER, BOND], BALANCE);
    assert [] + [TOTAL] == [TOTAL];
    assert [TOTAL] + [POWER] == [TOTAL, POWER];
    assert [TOTAL, POWER] + [SETS] == [TOTAL, POWER, SETS];
    assert [TOTAL, POWER, SETS] + [TOTAL_POWER] == [TOTAL, POWER, SETS, TOTAL_POWER];
    assert [TOTAL, POWER, SETS, TOTAL_POWER] + [BOND] == [TOTAL, POWER, SETS, TOTAL_POWER, BOND];
    assert [TOTAL, POWER, SETS, TOTAL_POWER, BOND] + [BALANCE] == CHANGES;
  }

  lemma BondWorthOne()
    ensures BondContribution(PARAMS, NOW, BOND.bond, []) == Some(TOKEN)
    ensures BondInitOk(PARAMS, BOND_POST, NOW)
  {
    hide AddAmounts, Get, SumOf, Contribution;
    NoSlashesPlain();
    assert BOND_POST == InitAt(NEW_BOND, NOW, 2);
    ShapedInit(StartRank, NEW_BOND, NOW, 2);
    AllOfInit(NEW_BOND, NOW, 2, 2);
    SumSingle<nat>(12, TOKEN);
    ContributionIsChange(BOND.bond, BondWorth([]), StartRank, NOW, 2);
    NewBondContributes();
  }

  lemma NewBondContributes()
    ensures BondContribution(PARAMS, NOW, BOND.bond, []).Some?
  {
    hide WorthThrough;
  }

  lemma TotalsPass()
    ensures TotalOk(PARAMS, Some(TOTAL_PRE), TOTAL_POST, NOW)
  {
    hide PreSum, PostSum;
    SumsOf();
    assert At(TOTAL_PRE, NOW) == TOKEN;
    forall e | NOW <= e <= NOW + 3 ensures TotalAllowed(PARAMS, Some(TOTAL_PRE), TOTAL_POST, NOW, e) {
      assert e == 10 || e == 11 || e == 12 || e == 13;
    }
  }

  lemma PowersPass()
    ensures PowerOk(PARAMS, POWER_POST, NOW)
  {
    hide PostSum;
    SumsOf();
    forall e | NOW <= e <= NOW + 3 && DeltaAt(POWER_POST, e).Some? ensures PostSum(POWER_POST, NOW, e) >= 0 {
      assert e == 10 || e == 12;
    }
  }

  lemma AllPass()
    ensures OkOf(PARAMS, NOW, TOTAL) && OkOf(PARAMS, NOW, POWER) && OkOf(PARAMS, NOW, SETS)
    ensures OkOf(PARAMS, NOW, TOTAL_POWER) && OkOf(PARAMS, NOW, BOND) && OkOf(PARAMS, NOW, BALANCE)
  {
    hide TotalOk, PowerOk, BondInitOk, BondContribution;
    TotalsPass();
    PowersPass();
    BondWorthOne();
  }

  /** The findings, change by change. */
  ghost function WithTotal(): Findings {
    NOTHING.(stakes := StakesFound(), totals := map[V := TOKEN])
  }

  ghost function WithPower(): Findings {
    WithTotal().(powers := PowersFound(), expected := map[12 := 1])
  }

  ghost function WithSets(): Findings {
    WithPower().(sets := Some((SETS_PRE, SETS_POST)))
  }

  ghost function WithTotalPower(): Findings {
    WithSets().(totalPower := map[12 := 1])
  }

  ghost function WithBond(): Findings {
    WithTotalPower().(bonds := map[V := TOKEN])
  }

  ghost function Found(): Findings {
    WithBond().(balance := TOKEN)
  }

  lemma TotalStep()
    ensures Step(PARAMS, NOW, NOTHING, TOTAL) == WithTotal()
  {
    hide OkOf, StakeEntries, PreSum, PostSum, Step, StakesFound;
    AllPass();
    TotalFound(PARAMS, NOW, NOTHING, V, TOTAL.total);
    StakesAre();
    SumsOf();
    assert map[] + StakesFound() == StakesFound();
  }

  lemma PowerStep()
    ensures Step(PARAMS, NOW, WithTotal(), POWER) == WithPower()
  {
    hide OkOf, PowerEntries, PowerDiffs, AddDiffs, Step, StakesFound, PowersFound;
    AllPass();
    PowerFound(PARAMS, NOW, WithTotal(), V, POWER.power);
    PowersAre();
    DiffsAre();
    NothingExpected();
    assert map[] + PowersFound() == PowersFound();
  }

  lemma OtherSteps()
    ensures Step(PARAMS, NOW, WithPower(), SETS) == WithSets()
    ensures Step(PARAMS, NOW, WithBond(), BALANCE) == Found()
  {
    hide StakesFound, PowersFound;
  }

  lemma TotalPowerStep()
    ensures Step(PARAMS, NOW, WithSets(), TOTAL_POWER) == WithTotalPower()
  {
    hide StakesFound, PowersFound, TotalPowerDiffs;
    TotalDiffsAre();
  }

  lemma BondStep()
    ensures Step(PARAMS, NOW, WithTotalPower(), BOND) == WithBond()
  {
    hide StakesFound, PowersFound, Step, BondContribution, BondInitOk;
    BondFound(PARAMS, NOW, WithTotalPower(), BondId(V, V), BOND.bond, []);
    BondWorthOne();
  }

  lemma FindingsAre()
    ensures Collect(PARAMS, NOW, CHANGES) == Found()
  {
    hide Step, Collect, WithTotal, WithPower, WithSets, WithTotalPower, WithBond, Found;
    CollectAll();
    TotalStep();
    PowerStep();
    OtherSteps();
    TotalPowerStep();
    BondStep();
  }

  lemma NothingExpected()
    ensures AddDiffs(map[], map[12 := 1]) == map[12 := 1]
  {
  }

  // ---------- the verdict ----------

  lemma OnlyThese(e: nat)
    ensures AnyStake(Found(), e) <==> e == 10 || e == 12 || e == 13
  {
    var f := Found();
    assert (10, V) in f.stakes && (12, V) in f.stakes && (13, V) in f.stakes;
  }

  lemma SetsPass()
    ensures SetsChecked(PARAMS, Found(), NOW)
  {
    hide VotingPower;
    PowersOf();
    var f := Found();
    assert Get(Later, SETS_PRE, 10) == Some(ONE);
    assert Get(Later, SETS_PRE, 11) == Some(ONE);
    assert Get(Later, SETS_PRE, 12) == Some(ONE);
    assert Get(Later, SETS_POST, 12) == Some(TWO);
    assert Get(Later, SETS_POST, 13) == Some(TWO);
    OnlyThese(11);
    forall e | NOW <= e <= NOW + 3 ensures SetAtOk(PARAMS, f, SETS_PRE, SETS_POST, NOW, e) {
      assert e == 10 || e == 11 || e == 12 || e == 13;
    }
  }

  lemma PowersAgree()
    ensures PowersMatchStakes(PARAMS, Found(), NOW)
  {
    hide VotingPower;
    PowersOf();
    OnlyThese(10);
    OnlyThese(12);
  }

  lemma OthersPass()
    ensures CleanOtherwise(PARAMS, Found(), NOW)
  {
    hide SetsChecked, PowersMatchStakes, SumOf, StakesFound, PowersFound;
    SetsPass();
    PowersAgree();
    SumSingle<Address>(V, TOKEN);
    SumOfNothing<Address>();
  }

  lemma StakesPass(order: seq<nat>)
    requires order == [10, 12, 13] || order == [12, 10, 13]
    ensures VisitOrder(Found(), order)
    ensures StakesMatchPowers(PARAMS, Found(), order) <==> order == [10, 12, 13]
  {
    hide VotingPower, Found;
    forall e ensures AnyStake(Found(), e) <==> e in order {
      OnlyThese(e);
    }
    EarlyShow(Previous(order, 0), Previous(order, 1));
    LateShow(Previous(order, 2));
  }

  lemma EarlyShow(a: Option<nat>, b: Option<nat>)
    ensures ShowAt(PARAMS, Found(), 10, a) && ShowAt(PARAMS, Found(), 10, b)
    ensures ShowAt(PARAMS, Found(), 12, a) && ShowAt(PARAMS, Found(), 12, b)
  {
    hide VotingPower;
    PowersOf();
  }

  lemma LateShow(previous: Option<nat>)
    ensures ShowAt(PARAMS, Found(), 13, previous) <==> previous == Some(12)
  {
    hide VotingPower;
    PowersOf();
    assert (13, V) in Found().stakes;
    assert ShowAt(PARAMS, Found(), 13, previous) <==> StakeShows(PARAMS, Found(), (13, V), previous);
  }

  /** The list is accepted when the epochs are visited in one order and rejected in
      another. */
  lemma OrderMatters()
    ensures VisitOrder(Collect(PARAMS, NOW, CHANGES), [10, 12, 13])
    ensures VisitOrder(Collect(PARAMS, NOW, CHANGES), [12, 10, 13])
    ensures Accepts(PARAMS, CHANGES, NOW, [10, 12, 13]) && !Accepts(PARAMS, CHANGES, NOW, [12, 10, 13])
  {
    hide Collect, Found, CleanOtherwise, StakesMatchPowers, Clean, VisitOrder;
    FindingsAre();
    OthersPass();
    StakesPass([10, 12, 13]);
    StakesPass([12, 10, 13]);
    CleanSplits(PARAMS, Found(), NOW, [10, 12, 13]);
    CleanSplits(PARAMS, Found(), NOW, [12, 10, 13]);
  }
}

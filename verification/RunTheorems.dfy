/** What the invariants mean for every state of every run. */
module RunTheorems {
  import opened Options
  import opened Timelines
  import opened Sums
  import opened Params
  import opened ValidatorSets
  import opened Ledger
  import opened StakeViews
  import opened CoreInvariant
  import opened DeltaMaps
  import opened BondInvariant
  import opened Solvency
  import opened Outcomes
  import opened Consensus
  import opened Runs

  // ---------- validator sets and voting powers ----------

  /** In every run, at every epoch from the current one on: the validator set is
      well formed, and every validator that has joined by then is in it exactly
      once, with the voting power of its stake. */
  lemma ValidatorSetsOfRuns(xs: seq<System>, actions: seq<Action>, i: nat, epoch: nat)
    requires Run(xs, actions) && i < |xs| && xs[i].pos.epoch <= epoch
    ensures var s := xs[i].pos;
      && WellFormed(SetAt(s, epoch), s.params.maxValidatorSlots)
      && (forall v :: Joined(s, v, epoch) ==>
            && FitsU64(Stake(s, v, epoch))
            && Weighted(VotingPower(s.params, Stake(s, v, epoch)), v) in SetAt(s, epoch).All()
            && (forall w :: w in SetAt(s, epoch).All() && w.address == v ==>
              w.power == VotingPower(s.params, Stake(s, v, epoch))))
      && (forall w :: w in SetAt(s, epoch).All() ==> Joined(s, w.address, epoch))
  {
    hide Run, Windows, SetsTrack, PowersFollow, TotalPowerOk, BondsShaped, Books, EngineOk, WellFormed, SetAt,
      VotingPower, Stake, Get;
    RunInv(xs, actions, i);
    var s := xs[i].pos;
    assert SetOk(s, epoch);
    forall v | Joined(s, v, epoch)
      ensures FitsU64(Stake(s, v, epoch))
      ensures Weighted(VotingPower(s.params, Stake(s, v, epoch)), v) in SetAt(s, epoch).All()
    {
      JoinedHasStake(s, v);
      assert FitsU64(Stake(s, v, epoch));
      assert Weighted(Weight(s, v, epoch), v) in Members(s, epoch);
    }
  }

  lemma JoinedHasStake(s: Pos, v: Address)
    requires Windows(s) && v in s.states
    ensures v in s.totals && v in s.powers
  {
  }

  /** In every run, at every epoch from the current one on, each validator's
      stored voting power is that of its stake, and the total is their sum. */
  lemma VotingPowersOfRuns(xs: seq<System>, actions: seq<Action>, i: nat, epoch: nat)
    requires Run(xs, actions) && i < |xs| && xs[i].pos.epoch <= epoch
    ensures var s := xs[i].pos;
      && s.powers.Keys == s.states.Keys
      && (forall v :: v in s.powers ==>
            FitsU64(Stake(s, v, epoch)) && At(s.powers[v], epoch) == VotingPower(s.params, Stake(s, v, epoch)))
      && At(s.totalPower, epoch) == SumOf(PowersAt(s, epoch))
  {
    hide Run, SetsTrack, SetsOk, BondsShaped, Books, EngineOk, VotingPower, At, SumOf, StateLine, Valid;
    RunInv(xs, actions, i);
    var s := xs[i].pos;
    forall v | v in s.powers
      ensures FitsU64(Stake(s, v, epoch)) && At(s.powers[v], epoch) == VotingPower(s.params, Stake(s, v, epoch))
    {
      assert FitsU64(Stake(s, v, epoch));
      assert Power(s, v, epoch) == Weight(s, v, epoch);
    }
  }

  // ---------- tokens ----------

  /** In every run, with any slashes, the tokens ever bonded under a bond are its
      bonds left, its unbonds left, those paid out by withdrawals and those slashed
      from them. */
  lemma TokensOfRuns(xs: seq<System>, actions: seq<Action>, i: nat, id: BondId)
    requires Run(xs, actions) && i < |xs|
    ensures AmountAt(xs[i].hist.bonded, id) ==
      SumOf(BondsOf(xs[i].pos, id)) + SumOf(UnbondsOf(xs[i].pos, id))
        + AmountAt(xs[i].hist.withdrawn, id) + AmountAt(xs[i].hist.slashed, id)
  {
    hide Run, Core, BondsShaped, EngineOk, SumOf, BondsOf, UnbondsOf, DelayedAt;
    RunInv(xs, actions, i);
    assert ConservedAt(xs[i], id);
  }

  /** In every run, the tokens paid out from a bond and slashed on the way are
      together at most those unbonded at least the unbonding length ago. */
  lemma WithdrawalDelayOfRuns(xs: seq<System>, actions: seq<Action>, i: nat, id: BondId)
    requires Run(xs, actions) && i < |xs|
    ensures AmountAt(xs[i].hist.withdrawn, id) + AmountAt(xs[i].hist.slashed, id) <= Matured(xs[i], id, xs[i].pos.epoch)
  {
    hide Run, Core, BondsShaped, EngineOk, SumOf, Keep, Get, ConservedAt;
    RunInv(xs, actions, i);
    assert DelayedAt(xs[i], id, xs[i].pos.epoch);
    SumNonNegative(DueBy(xs[i].pos, id, xs[i].pos.epoch));
  }

  /** A withdrawal pays out or slashes all of them. */
  lemma WithdrawalReleasesAll(xs: seq<System>, actions: seq<Action>, i: nat, source: Option<Address>, v: Address)
    requires Run(xs, actions) && i < |actions| && actions[i] == DoWithdraw(source, v)
    requires WindowsFit(xs[i].pos) && WithdrawTokens(xs[i].pos, source, v).Ok?
    ensures var id, h := IdOf(source, v), xs[i + 1].hist;
      AmountAt(h.withdrawn, id) + AmountAt(h.slashed, id) == Matured(xs[i + 1], id, xs[i + 1].pos.epoch)
  {
    hide Core, BondsShaped, EngineOk, SumOf, Keep, Get, ConservedAt, WithdrawTokens, Next, Initial;
    RunInv(xs, actions, i);
    RunInv(xs, actions, i + 1);
    RunStep(xs, actions, i);
    NothingDueAfter(xs[i], source, v, xs[i + 1]);
    assert DelayedAt(xs[i + 1], IdOf(source, v), xs[i + 1].pos.epoch);
  }

  lemma RunSize(xs: seq<System>, actions: seq<Action>)
    requires Run(xs, actions)
    ensures |xs| == |actions| + 1
  {
    hide Next, Initial;
  }

  lemma RunStep(xs: seq<System>, actions: seq<Action>, i: nat)
    requires Run(xs, actions) && i < |actions|
    ensures Next(xs[i], actions[i], xs[i + 1])
  {
    hide Next, Initial;
  }

  lemma NothingDueAfter(x: System, source: Option<Address>, v: Address, y: System)
    requires Inv(x) && Next(x, DoWithdraw(source, v), y) && WithdrawTokens(x.pos, source, v).Ok?
    ensures SumOf(DueBy(y.pos, IdOf(source, v), y.pos.epoch)) == 0
  {
    hide SetsTrack, StakesFit, SetsOk, PowersFollow, TotalPowerOk, Books, EngineOk, SumOf, AddAmounts, Get, Withdraw,
      BondOk, UnbondOk;
    var s, id := x.pos, IdOf(source, v);
    WithdrawEffect(s, source, v, y.pos);
    var due, rest := DueBy(s, id, s.epoch), DueBy(y.pos, id, s.epoch);
    assert due == AddAmounts(due, rest);
    SumAddAmounts(due, rest);
  }

  /** In every run the consensus engine has exactly the active validators with
      voting power of the current epoch. */
  lemma EngineOfRuns(xs: seq<System>, actions: seq<Action>, i: nat)
    requires Run(xs, actions) && i < |xs|
    ensures var s := xs[i].pos;
      forall a :: a in xs[i].hist.engine <==> exists w :: w in SetAt(s, s.epoch).active && w.address == a && w.power > 0
    ensures var s := xs[i].pos;
      forall w :: w in SetAt(s, s.epoch).active && w.power > 0 ==>
        w.address in xs[i].hist.engine && xs[i].hist.engine[w.address] == w.power
  {
    hide Run, Windows, SetsTrack, StakesFit, PowersFollow, TotalPowerOk, BondsShaped, Books, SetAt, Members;
    RunInv(xs, actions, i);
    var s := xs[i].pos;
    assert SetOk(s, s.epoch);
  }

  /** The voting powers of the active validators, by address. */
  ghost function ActivePowers(vs: ValidatorSet): map<Address, int> {
    if UniqueAddresses(vs.All()) then map w | w in vs.active :: w.address := w.power else map[]
  }

  lemma {:induction false} SumBound<K>(m: map<K, int>, n: nat, most: nat)
    requires |m| <= n && forall k :: k in m ==> m[k] <= most
    ensures SumOf(m) <= n * most
    decreases |m|
  {
    if m == map[] {
      SumOfNothing<K>();
    } else {
      var k :| k in m;
      SumSplit(m, k);
      assert |m - {k}| == |m| - 1;
      SumBound(m - {k}, n - 1, most);
      assert n * most == (n - 1) * most + most;
    }
  }

  lemma {:induction false} AddressesCount(ws: set<Weighted>, addresses: set<Address>)
    requires forall a :: a in addresses ==> exists w :: w in ws && w.address == a
    ensures |addresses| <= |ws|
    decreases |ws|
  {
    if addresses != {} {
      var a :| a in addresses;
      var w :| w in ws && w.address == a;
      forall b | b in addresses - {a} ensures exists x :: x in ws - {w} && x.address == b {
        var x :| x in ws && x.address == b;
        assert x in ws - {w};
      }
      AddressesCount(ws - {w}, addresses - {a});
    }
  }

  /** In every run, at every epoch from the current one on, the voting powers of
      the active validators sum to no more than Tendermint accepts; so do those of
      the engine's validators. */
  lemma ActivePowersOfRuns(xs: seq<System>, actions: seq<Action>, i: nat, epoch: nat)
    requires Run(xs, actions) && i < |xs| && xs[i].pos.epoch <= epoch
    ensures SumOf(ActivePowers(SetAt(xs[i].pos, epoch))) <= MAX_TOTAL_VOTING_POWER
    ensures SumOf(xs[i].hist.engine) <= MAX_TOTAL_VOTING_POWER
  {
    hide Run, BondsShaped, Books, SumOf, ActivePowers, Powerful, SetAt, Core, Filled;
    RunInv(xs, actions, i);
    PowersLimited(xs[i].pos, epoch);
    PowersLimited(xs[i].pos, xs[i].pos.epoch);
    PowerfulSum(SetAt(xs[i].pos, xs[i].pos.epoch));
  }

  lemma PowersLimited(s: Pos, epoch: nat)
    requires Core(s) && s.epoch <= epoch
    ensures SumOf(ActivePowers(SetAt(s, epoch))) <= MAX_TOTAL_VOTING_POWER
  {
    hide Windows, SetsTrack, PowersFollow, TotalPowerOk, SumOf, SetAt, VotingPower, Stake, MulBps;
    assert SetOk(s, epoch);
    var vs, most := SetAt(s, epoch), MulBps(s.params.votesPerToken, TOKEN_MAX_AMOUNT);
    var m := ActivePowers(vs);
    forall a | a in m ensures m[a] <= most {
      assert Weighted(m[a], a) in vs.All();
      PowerLimited(s, a, epoch);
    }
    AddressesCount(vs.active, m.Keys);
    assert |m| == |m.Keys|;
    SumBound(m, s.params.maxValidatorSlots, most);
  }

  lemma PowerLimited(s: Pos, v: Address, epoch: nat)
    requires Windows(s) && StakesFit(s) && s.epoch <= epoch && v in s.states
    ensures Weight(s, v, epoch) <= MulBps(s.params.votesPerToken, TOKEN_MAX_AMOUNT)
  {
    hide Stake, MulBps, StateLine;
    assert FitsU64(Stake(s, v, epoch));
    MulBpsMonotone(s.params.votesPerToken, Max(0, Stake(s, v, epoch)) / MICRO, TOKEN_MAX_AMOUNT);
  }

  lemma PowerfulSum(vs: ValidatorSet)
    ensures SumOf(Powerful(vs)) <= SumOf(ActivePowers(vs))
  {
    hide SumOf;
    SumLess(Powerful(vs), ActivePowers(vs));
  }

  // ---------- without slashes ----------

  ghost predicate NoSlash(actions: seq<Action>) {
    forall i :: 0 <= i < |actions| ==> !actions[i].DoSlash?
  }

  lemma SolventStep(x: System, a: Action, y: System)
    requires Inv(x) && Solvent(x.pos) && Next(x, a, y) && !a.DoSlash?
    ensures Solvent(y.pos)
  {
    hide Core, BondsShaped, Books, EngineOk, Solvent, BondTokens, UnbondTokens, Withdraw, BecomeValidator, Takeable,
      Lists, Replay, DueBy;
    match a
    case DoBecome(address, reward) =>
      var r := BecomeValidator(x.pos, address, reward);
      if r.Ok? { BecomeValidatorSolvent(x.pos, address, reward, r.value); }
    case DoBond(source, v, amount) =>
      var r := BondTokens(x.pos, source, v, amount);
      if r.Ok? { BondSolvent(x.pos, source, v, amount, r.value); }
    case DoUnbond(source, v, amount, taken) =>
      var r := UnbondTokens(x.pos, source, v, amount, taken);
      if r.Ok? { UnbondSolvent(x.pos, source, v, amount, taken, r.value); }
    case DoWithdraw(source, v) =>
      var r := WithdrawTokens(x.pos, source, v);
      if r.Ok? { WithdrawSolvent(x.pos, source, v, r.value); }
    case DoNextEpoch(updates) =>
      NextEpochBonds(x.pos);
  }

  lemma {:induction false} RunSolvent(xs: seq<System>, actions: seq<Action>, i: nat)
    requires Run(xs, actions) && i < |xs| && NoSlash(actions)
    ensures Inv(xs[i]) && Solvent(xs[i].pos)
    decreases i
  {
    hide Inv, Initial, Next, Solvent;
    RunInv(xs, actions, i);
    if i == 0 {
      var params, tokens, g :| Initial(xs[0], params, tokens, g);
      InitialInv(xs[0], params, tokens, g);
    } else {
      RunSolvent(xs, actions, i - 1);
      RunInv(xs, actions, i - 1);
      RunStep(xs, actions, i - 1);
      SolventStep(xs[i - 1], actions[i - 1], xs[i]);
    }
  }

  /** The tokens bonded to a validator, by bond. */
  ghost function BondedTo(s: Pos, v: Address): map<BondId, int> {
    map id | id in Ids(s) && id.validator == v :: SumOf(BondsOf(s, id))
  }

  /** Once the window has passed, only bonds are at stake. */
  lemma StakedInTheEnd(s: Pos, id: BondId, epoch: nat)
    requires BondsShaped(s) && s.epoch + s.params.unbondingLen <= epoch && s.params.pipelineLen <= s.params.unbondingLen
    ensures Staked(s, id, epoch) == SumOf(BondsOf(s, id))
  {
    hide SumOf, Keep, Shaped, Get, AddAmounts;
    if id in s.bonds {
      ShapedGet(s.bonds[id], StartRank, s.bonds[id].lastUpdate + s.params.pipelineLen);
    }
    KeepAll(BondsOf(s, id), StartedBy(epoch));
    if id in s.unbonds {
      ShapedGet(s.unbonds[id], EndRank, s.unbonds[id].lastUpdate + s.params.unbondingLen);
    }
    KeepNone(UnbondsOf(s, id), AtStake(epoch));
    SumOfNothing<(nat, nat)>();
  }

  /** In every run without slashes, a validator's stake at any epoch from now on
      is what bonds and unbonds put at stake for it then, hence not negative, and
      in the end it is exactly the tokens bonded to it. */
  lemma StakesOfSlashFreeRuns(xs: seq<System>, actions: seq<Action>, i: nat, v: Address, epoch: nat)
    requires Run(xs, actions) && i < |xs| && NoSlash(actions)
    requires v in xs[i].pos.totals && xs[i].pos.epoch <= epoch
    ensures Stake(xs[i].pos, v, epoch) == SumOf(Backing(xs[i].pos, v, epoch)) >= 0
    ensures epoch >= xs[i].pos.epoch + xs[i].pos.params.unbondingLen ==>
      Stake(xs[i].pos, v, epoch) == SumOf(BondedTo(xs[i].pos, v))
  {
    hide Run, SetsTrack, StakesFit, SetsOk, PowersFollow, TotalPowerOk, BondsShaped, Books, EngineOk, SumOf, Stake,
      Staked, Holdings, BondsOf, StateLine, Next, Initial;
    RunSolvent(xs, actions, i);
    var s := xs[i].pos;
    BackingBounds(s, v, epoch);
    if epoch >= s.epoch + s.params.unbondingLen {
      forall id ensures Staked(s, id, epoch) == SumOf(BondsOf(s, id)) {
        StakedInTheEnd(s, id, epoch);
      }
      assert Backing(s, v, epoch) == BondedTo(s, v);
    }
  }

  /** In every run without slashes, the account of the system holds exactly all
      bonded and unbonded tokens, and no unbonding or withdrawal aborts. */
  lemma BalanceOfSlashFreeRuns(xs: seq<System>, actions: seq<Action>, i: nat)
    requires Run(xs, actions) && i < |xs| && NoSlash(actions)
    ensures xs[i].pos.balance == SumOf(Holdings(xs[i].pos))
    ensures WindowsFit(xs[i].pos)
    ensures forall source, v :: !WithdrawTokens(xs[i].pos, source, v).Panicked?
    ensures forall source, v, amount, taken ::
      (IdOf(source, v) in xs[i].pos.bonds ==> Takeable(xs[i].pos, IdOf(source, v), amount, taken)) ==>
      !UnbondTokens(xs[i].pos, source, v, amount, taken).Panicked?
  {
    hide Run, SetsTrack, StakesFit, SetsOk, PowersFollow, TotalPowerOk, BondsShaped, Books, EngineOk, SumOf,
      StakesBacked, Holdings, StateLine, WithdrawTokens, UnbondTokens, Takeable, Next, Initial;
    RunSolvent(xs, actions, i);
    var s := xs[i].pos;
    forall source, v ensures !WithdrawTokens(s, source, v).Panicked? {
      WithdrawOutcome(s, source, v);
    }
    forall source, v, amount, taken | IdOf(source, v) in s.bonds ==> Takeable(s, IdOf(source, v), amount, taken)
      ensures !UnbondTokens(s, source, v, amount, taken).Panicked?
    {
      UnbondOutcome(s, source, v, amount, taken);
    }
  }
}

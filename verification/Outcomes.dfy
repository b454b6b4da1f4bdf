/**
 When transitions go through. Without slashes the conversions that abort the
 program never fail on stakes, and every withdrawal is funded; after slashes both
 can happen, and it is said exactly when.
 */
module Outcomes {
  import opened Options
  import opened Timelines
  import opened Sums
  import opened Params
  import opened ValidatorSets
  import opened Ledger
  import opened StakeViews
  import opened CoreInvariant
  import opened DeltaMaps
  import opened BondInvariant
  import opened Solvency

  lemma {:induction false} UpdatePowersGoesThrough(params: PosParams, total: Timeline<int>, power: Timeline<int>,
        totalPower: Timeline<int>, current: nat, x: nat)
    requires current <= x && Valid(params)
    requires forall e :: x <= e <= current + params.unbondingLen ==> FitsU64(At(total, e))
    ensures UpdatePowers(params, total, power, totalPower, current, x).Ok?
    decreases current + params.unbondingLen + 1 - x
  {
    hide AddAt, At, Valid, VotingPower;
    if x <= current + params.unbondingLen {
      VotingPowerFits(params, At(total, x));
      var delta := TryVotingPowerDelta(params, At(total, x)).value - At(power, x);
      UpdatePowersGoesThrough(params, total,
        AddAt(AddInts, power, delta, current, x - current, params.unbondingLen),
        AddAt(AddInts, totalPower, delta, current, x - current, params.unbondingLen), current, x + 1);
    }
  }

  /** A change of stake goes through when the stake stays within its type. */
  lemma ChangeGoesThrough(s: Pos, v: Address, change: int, i: nat)
    requires Windows(s) && StakesFit(s) && Valid(s.params) && v in s.totals && i <= s.params.unbondingLen
    requires forall e :: s.epoch + i <= e ==> FitsU64(Stake(s, v, e) + change)
    ensures ChangeStake(s, v, change, i).Ok?
  {
    hide AddAt, At, UpdateFrom, UpdatePowers, Mover, StateLine, Valid, Visited;
    var c, off := s.epoch, s.params.unbondingLen;
    var t := s.totals[v];
    forall x | c + i <= x <= c + off ensures FitsU64(At(AddAt(AddInts, t, change, c, i, off), x)) {
      AddAtInt(t, change, c, i, off, x);
      assert FitsU64(Stake(s, v, x) + change);
    }
    UpdatePowersGoesThrough(s.params, AddAt(AddInts, t, change, c, i, off), s.powers[v], s.totalPower, c, c + i);
    forall x | c + i <= x <= c + off ensures FitsU64(StakeIn(Some(t), x)) && FitsU64(StakeIn(Some(t), x) + change) {
      assert FitsU64(Stake(s, v, x)) && FitsU64(Stake(s, v, x) + change);
    }
  }

  // ---------- bounds on stakes ----------

  lemma SumKeepBounds<K>(m: map<K, nat>, p: K -> bool)
    ensures 0 <= SumOf(Keep(m, p)) <= SumOf(m)
  {
    SumNonNegative(Keep(m, p));
    SumLess(Keep(m, p), m);
  }

  lemma StakedBounds(s: Pos, id: BondId, epoch: nat)
    ensures 0 <= Staked(s, id, epoch) <= Held(s, id)
    ensures SumOf(UnbondsOf(s, id)) <= Held(s, id)
  {
    hide AllOf, SumOf, Keep;
    SumKeepBounds(BondsOf(s, id), StartedBy(epoch));
    SumKeepBounds(UnbondsOf(s, id), AtStake(epoch));
  }

  /** Tokens at stake for a validator are held by the system. */
  lemma BackingBounds(s: Pos, v: Address, epoch: nat)
    ensures 0 <= SumOf(Backing(s, v, epoch)) <= SumOf(Holdings(s))
    ensures forall id :: Held(s, id) <= SumOf(Holdings(s))
    ensures forall id: BondId :: id.validator == v ==> Staked(s, id, epoch) <= SumOf(Backing(s, v, epoch))
  {
    hide Staked, Held, SumOf;
    var m, n := Backing(s, v, epoch), Holdings(s);
    forall id ensures 0 <= Staked(s, id, epoch) <= Held(s, id) {
      StakedBounds(s, id, epoch);
    }
    SumNonNegative(m);
    SumNonNegative(n);
    SumLess(m, n);
    forall id ensures Held(s, id) <= SumOf(n) {
      if id !in Ids(s) { NothingStaked(s, id, epoch); } else { assert n[id] == Held(s, id); }
    }
    forall id: BondId | id.validator == v ensures Staked(s, id, epoch) <= SumOf(m) {
      if id !in Ids(s) { NothingStaked(s, id, epoch); } else { assert m[id] == Staked(s, id, epoch); }
    }
  }

  // ---------- bonding ----------

  lemma NoneInactive(s: Pos, v: Address)
    requires Windows(s) && v in s.states
    ensures forall e :: s.epoch <= e ==> Get(Later, s.states[v], e) != Some(Inactive)
  {
    hide Get;
    assert StateLine(s.states[v], s.params.pipelineLen);
    forall e | s.epoch <= e ensures Get(Later, s.states[v], e) != Some(Inactive) {
      assert Get(Later, s.states[v], e) in {Some(Pending), Some(Candidate)};
    }
  }

  lemma BondChangeGoesThrough(s: Pos, v: Address, amount: nat)
    requires Core(s) && Solvent(s) && v in s.states && s.balance + amount <= U64_MAX
    ensures ChangeStake(s, v, amount, s.params.pipelineLen).Ok?
  {
    hide Get, SetsTrack, SetsOk, PowersFollow, TotalPowerOk, StateLine, SumOf, Backing, Holdings, ChangeStake, Stake,
      MaxTotalVotingPower;
    forall e | s.epoch + s.params.pipelineLen <= e ensures FitsU64(Stake(s, v, e) + amount) {
      BackingBounds(s, v, e);
    }
    ChangeGoesThrough(s, v, amount, s.params.pipelineLen);
  }

  /** Without slashes, bonding goes through exactly when a positive amount is
      bonded to a validator, not by another validator, and the account of the
      system can hold it. */
  lemma BondOutcome(s: Pos, source: Option<Address>, v: Address, amount: nat)
    requires Core(s) && Solvent(s)
    ensures BondTokens(s, source, v, amount).Ok? <==>
      amount > 0 && v in s.states && (source.Some? && source.value != v ==> source.value !in s.states)
        && s.balance + amount <= U64_MAX
    ensures BondTokens(s, source, v, amount).Panicked? ==> s.balance + amount > U64_MAX
  {
    hide Get, SetsTrack, StakesFit, SetsOk, PowersFollow, TotalPowerOk, StateLine, Solvent, ChangeStake, AddAt,
      InitAt, MaxTotalVotingPower;
    if v in s.states {
      NoneInactive(s, v);
      if s.balance + amount <= U64_MAX {
        BondChangeGoesThrough(s, v, amount);
      }
    }
  }

  // ---------- unbonding ----------

  /** After the unbonding length all the tokens of a bond are at stake. */
  lemma BondStakedInTheEnd(s: Pos, id: BondId, epoch: nat)
    requires BondsShaped(s) && s.epoch + s.params.pipelineLen <= epoch
    ensures SumOf(BondsOf(s, id)) <= Staked(s, id, epoch)
  {
    hide SumOf, Keep, Shaped, Get, AddAmounts;
    SumKeepBounds(UnbondsOf(s, id), AtStake(epoch));
    if id in s.bonds {
      ShapedGet(s.bonds[id], StartRank, s.bonds[id].lastUpdate + s.params.pipelineLen);
    }
    KeepAll(BondsOf(s, id), StartedBy(epoch));
  }

  lemma UnbondChangeGoesThrough(s: Pos, id: BondId, amount: nat)
    requires Core(s) && Solvent(s) && BondsShaped(s) && id.validator in s.states && amount <= SumOf(BondsOf(s, id))
    ensures ChangeStake(s, id.validator, 0 - amount as int, s.params.unbondingLen).Ok?
  {
    hide Get, SetsTrack, SetsOk, PowersFollow, TotalPowerOk, StateLine, SumOf, Backing, Holdings, ChangeStake, Stake,
      MaxTotalVotingPower, BondsShaped, Staked, BondsOf;
    forall e | s.epoch + s.params.unbondingLen <= e ensures FitsU64(Stake(s, id.validator, e) + (0 - amount as int)) {
      BackingBounds(s, id.validator, e);
      BondStakedInTheEnd(s, id, e);
      assert FitsU64(Stake(s, id.validator, e));
    }
    ChangeGoesThrough(s, id.validator, 0 - amount as int, s.params.unbondingLen);
  }

  /** Without slashes, unbonding goes through exactly when there is a bond with at
      least the positive amount; it never aborts. */
  lemma UnbondOutcome(s: Pos, source: Option<Address>, v: Address, amount: nat, taken: seq<Bond>)
    requires Core(s) && Solvent(s) && BondsShaped(s)
    requires IdOf(source, v) in s.bonds ==> Takeable(s, IdOf(source, v), amount, taken)
    ensures UnbondTokens(s, source, v, amount, taken).Ok? <==>
      IdOf(source, v) in s.bonds && 0 < amount <= SumOf(BondsOf(s, IdOf(source, v)))
    ensures !UnbondTokens(s, source, v, amount, taken).Panicked?
  {
    hide Get, SetsTrack, StakesFit, SetsOk, PowersFollow, TotalPowerOk, StateLine, StakesBacked, ChangeStake, AddAt,
      InitAt, MaxTotalVotingPower, SumOf, WorthInAll, TakenInAll, Ending, Advance, LeftOvers, BondOk, UnbondOk,
      BondsOf;
    var id := IdOf(source, v);
    if id in s.bonds {
      BondEnd(s, id);
      if 0 < amount <= SumOf(BondsOf(s, id)) {
        BondLeftOk(s, id, amount, taken);
        WorthUnslashed(taken);
        UnbondChangeGoesThrough(s, id, amount);
      }
    }
  }

  // ---------- withdrawing ----------

  /** Something can be withdrawn exactly when the due tokens sum to more than
      nothing. */
  lemma DueWhenPositive(s: Pos, id: BondId)
    requires BondsShaped(s) && Filled(s)
    ensures id in s.unbonds && Get(AddAmounts<(nat, nat)>, s.unbonds[id], s.epoch).Some? <==>
      SumOf(DueBy(s, id, s.epoch)) > 0
  {
    hide Get, SumOf, Shaped, AddAmounts, FilledLine;
    SumOfNothing<(nat, nat)>();
    if id in s.unbonds {
      var t := s.unbonds[id];
      ShapedGet(t, EndRank, s.epoch);
      FilledGet(t, s.epoch);
      var due := DueBy(s, id, s.epoch);
      SumNonNegative(due);
      if SumOf(due) == 0 {
        SumZeroEmpty(due);
      }
    }
  }

  /** Without slashes, a withdrawal goes through exactly when tokens are due; it is
      always funded. */
  lemma WithdrawOutcome(s: Pos, source: Option<Address>, v: Address)
    requires Core(s) && Solvent(s) && BondsShaped(s) && Filled(s)
    ensures WithdrawTokens(s, source, v).Ok? <==> SumOf(DueBy(s, IdOf(source, v), s.epoch)) > 0
    ensures !WithdrawTokens(s, source, v).Panicked?
  {
    hide Get, SetsTrack, StakesFit, SetsOk, PowersFollow, TotalPowerOk, StateLine, StakesBacked, MaxTotalVotingPower,
      SumOf, DeleteHead, Withdrawable, Shaped, Holdings, Held;
    var id := IdOf(source, v);
    DueWhenPositive(s, id);
    if id in s.unbonds {
      DueHeld(s, id);
      WithdrawableUnslashed(DueBy(s, id, s.epoch));
      BackingBounds(s, v, s.epoch);
    }
  }

  lemma DueHeld(s: Pos, id: BondId)
    requires BondsShaped(s) && id in s.unbonds
    ensures SumOf(DueBy(s, id, s.epoch)) <= Held(s, id)
  {
    hide Get, SumOf, Shaped, AddAmounts;
    var t, off := s.unbonds[id], s.params.unbondingLen;
    SumGetGrows(t, s.epoch, s.epoch + off);
    AllOfAt(t, off, s.epoch + off);
    SumNonNegative(BondsOf(s, id));
  }

  // ---------- slashing ----------

  /** What a slash of this kind takes off the stake. */
  function SlashedAmount(s: Pos, v: Address, slashType: SlashType): nat
    requires v in s.totals && At(s.totals[v], s.epoch) >= 0
  {
    MulBps(SlashRate(s.params, slashType), At(s.totals[v], s.epoch))
  }

  lemma {:induction false} UpdatePowersNoError(params: PosParams, total: Timeline<int>, power: Timeline<int>,
                                               totalPower: Timeline<int>, current: nat, x: nat)
    requires current <= x && Valid(params)
    ensures !UpdatePowers(params, total, power, totalPower, current, x).Err?
    decreases current + params.unbondingLen + 1 - x
  {
    hide AddAt, At, Valid, VotingPower;
    if x <= current + params.unbondingLen && FitsU64(At(total, x)) {
      VotingPowerFits(params, At(total, x));
      var delta := TryVotingPowerDelta(params, At(total, x)).value - At(power, x);
      UpdatePowersNoError(params, total,
        AddAt(AddInts, power, delta, current, x - current, params.unbondingLen),
        AddAt(AddInts, totalPower, delta, current, x - current, params.unbondingLen), current, x + 1);
    }
  }

  lemma ChangeNoError(s: Pos, v: Address, change: int, i: nat)
    requires Valid(s.params) && i <= s.params.unbondingLen && Fits(s.sets, s.params.unbondingLen)
    ensures !ChangeStake(s, v, change, i).Err?
  {
    hide AddAt, UpdateFrom, UpdatePowers, Mover, Valid, MoveFits, InitAt;
    UpdatePowersNoError(s.params, TotalAfter(Find(s.totals, v), change, s.epoch, i, s.params.unbondingLen),
      PowerBefore(Find(s.powers, v), s.epoch, i), s.totalPower, s.epoch, s.epoch + i);
  }

  lemma SlashedWithin(s: Pos, v: Address, slashType: SlashType)
    requires v in s.totals && At(s.totals[v], s.epoch) >= 0
    ensures SlashedAmount(s, v, slashType) <= At(s.totals[v], s.epoch)
  {
    MulBpsAtMost(SlashRate(s.params, slashType), At(s.totals[v], s.epoch));
  }

  /** A change of stake that went through has left it within its type. */
  lemma ChangedStakeFits(s: Pos, v: Address, change: int, i: nat, e: nat)
    requires Windows(s) && StakesFit(s) && v in s.totals && i <= s.params.unbondingLen && s.epoch + i <= e
    requires ChangeStake(s, v, change, i).Ok?
    ensures FitsU64(Stake(s, v, e) + change)
  {
    hide ChangeStake, Stake, StateLine;
    var s' := ChangeStake(s, v, change, i).value;
    ChangeFits(s, v, change, i, s');
    ChangeStakes(s, v, change, i, s');
    ChangeFrame(s, v, change, i, s');
    assert FitsU64(Stake(s', v, e));
  }

  /** A change of stake goes through exactly when the stake stays within its type. */
  lemma ChangeOutcome(s: Pos, v: Address, change: int, i: nat)
    requires Windows(s) && StakesFit(s) && Valid(s.params) && v in s.totals && i <= s.params.unbondingLen
    ensures ChangeStake(s, v, change, i).Ok? <==> forall e :: s.epoch + i <= e ==> FitsU64(Stake(s, v, e) + change)
  {
    hide ChangeStake, Valid, Stake, StateLine;
    if forall e :: s.epoch + i <= e ==> FitsU64(Stake(s, v, e) + change) {
      ChangeGoesThrough(s, v, change, i);
    }
    if ChangeStake(s, v, change, i).Ok? {
      forall e | s.epoch + i <= e ensures FitsU64(Stake(s, v, e) + change) {
        ChangedStakeFits(s, v, change, i, e);
      }
    }
  }

  lemma SlashChange(s: Pos, v: Address, slashed: nat)
    requires Windows(s) && StakesFit(s) && Valid(s.params) && v in s.totals
    requires s.params.pipelineLen <= s.params.unbondingLen
    ensures ChangeStake(s, v, 0 - slashed as int, s.params.pipelineLen).Ok? <==>
      forall e :: s.epoch + s.params.pipelineLen <= e ==> slashed <= Stake(s, v, e)
  {
    hide ChangeStake, Valid, Stake, StateLine;
    ChangeOutcome(s, v, 0 - slashed as int, s.params.pipelineLen);
    forall e | s.epoch <= e ensures FitsU64(Stake(s, v, e)) {
    }
  }

  /** The amount is found from the stake of the current epoch but taken off from
      the pipeline offset on. A slash goes through exactly when the stake does not
      fall below that amount by then; otherwise it aborts. */
  lemma SlashOutcome(s: Pos, v: Address, slashType: SlashType, evidenceEpoch: nat)
    requires Core(s) && v in s.states
    ensures v in s.totals && At(s.totals[v], s.epoch) >= 0
    ensures SlashValidator(s, v, slashType, evidenceEpoch).Ok? <==>
      forall e :: s.epoch + s.params.pipelineLen <= e ==> SlashedAmount(s, v, slashType) <= Stake(s, v, e)
    ensures !SlashValidator(s, v, slashType, evidenceEpoch).Err?
  {
    hide ChangeStake, At, SetsTrack, SetsOk, PowersFollow, TotalPowerOk, StateLine, MulBps, Fits;
    assert FitsU64(Stake(s, v, s.epoch));
    SlashedWithin(s, v, slashType);
    ChangeNoError(s, v, 0 - SlashedAmount(s, v, slashType) as int, s.params.pipelineLen);
    SlashChange(s, v, SlashedAmount(s, v, slashType));
  }

  // ---------- after any slashes ----------

  /** In any sound state, bonding goes through exactly when it is allowed and both
      the stake and the account of the system can hold the amount. */
  lemma BondOutcomeOfAny(s: Pos, source: Option<Address>, v: Address, amount: nat)
    requires Core(s)
    ensures BondTokens(s, source, v, amount).Ok? <==>
      && amount > 0 && v in s.states && (source.Some? && source.value != v ==> source.value !in s.states)
      && s.balance + amount <= U64_MAX
      && forall e :: s.epoch + s.params.pipelineLen <= e ==> Stake(s, v, e) + amount <= U64_MAX
  {
    hide Get, SetsTrack, SetsOk, PowersFollow, TotalPowerOk, StateLine, ChangeStake, AddAt, InitAt,
      MaxTotalVotingPower, Stake;
    if v in s.states {
      NoneInactive(s, v);
      ChangeOutcome(s, v, amount, s.params.pipelineLen);
      forall e | s.epoch + s.params.pipelineLen <= e ensures FitsU64(Stake(s, v, e)) {
      }
    }
  }

  /** In any sound state, unbonding goes through exactly when there is a bond with at
      least the positive amount and the stake does not fall below what the taken
      tokens are worth; when only the latter fails, it aborts. */
  lemma UnbondOutcomeOfAny(s: Pos, source: Option<Address>, v: Address, amount: nat, taken: seq<Bond>)
    requires Core(s) && BondsShaped(s)
    requires IdOf(source, v) in s.bonds ==> Takeable(s, IdOf(source, v), amount, taken)
    ensures var id := IdOf(source, v);
      var enough := id in s.bonds && 0 < amount <= SumOf(BondsOf(s, id));
      var covered := forall e :: s.epoch + s.params.unbondingLen <= e ==>
        WorthInAll(taken, SlashesOf(s, v)) <= Stake(s, v, e);
      && (UnbondTokens(s, source, v, amount, taken).Ok? <==> enough && covered)
      && (UnbondTokens(s, source, v, amount, taken).Panicked? <==> enough && !covered)
  {
    hide Get, SetsTrack, SetsOk, PowersFollow, TotalPowerOk, StateLine, ChangeStake, AddAt, InitAt, Stake,
      MaxTotalVotingPower, SumOf, WorthInAll, TakenInAll, Ending, Advance, LeftOvers, BondOk, UnbondOk, BondsOf;
    var id := IdOf(source, v);
    if id in s.bonds {
      BondEnd(s, id);
      var worth := WorthInAll(taken, SlashesOf(s, v));
      if 0 < amount <= SumOf(BondsOf(s, id)) {
        BondLeftOk(s, id, amount, taken);
        ChangeOutcome(s, v, 0 - worth as int, s.params.unbondingLen);
        ChangeNoError(s, v, 0 - worth as int, s.params.unbondingLen);
        forall e | s.epoch + s.params.unbondingLen <= e ensures FitsU64(Stake(s, v, e)) {
        }
      }
    }
  }

  /** In any sound state, a withdrawal goes through exactly when tokens are due and
      the account of the system can pay out what they are worth; when only the latter
      fails, it aborts. */
  lemma WithdrawOutcomeOfAny(s: Pos, source: Option<Address>, v: Address)
    requires Core(s) && BondsShaped(s) && Filled(s)
    ensures var due := DueBy(s, IdOf(source, v), s.epoch);
      && (WithdrawTokens(s, source, v).Ok? <==> SumOf(due) > 0 && Withdrawable(due, SlashesOf(s, v)) <= s.balance)
      && (WithdrawTokens(s, source, v).Panicked? <==> SumOf(due) > 0 && Withdrawable(due, SlashesOf(s, v)) > s.balance)
  {
    hide Get, SetsTrack, StakesFit, SetsOk, PowersFollow, TotalPowerOk, StateLine, MaxTotalVotingPower, SumOf,
      DeleteHead, Withdrawable, Shaped;
    DueWhenPositive(s, IdOf(source, v));
  }
}

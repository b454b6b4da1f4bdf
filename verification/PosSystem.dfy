/**
 The staking system as an object: one field for each kind of stored data. Its
 methods read containers from storage, change them in place and write them back,
 and are proved to make the transitions of `Ledger`.
 */
module PosSystems {
  import opened Options
  import opened T = Timelines
  import opened Sums
  import opened Params
  import opened ValidatorSets
  import opened L = Ledger
  import opened CoreInvariant
  import opened DeltaMaps
  import opened BondInvariant
  import opened Consensus
  import opened EpochedContainers
  import opened Transitions
  import opened GenesisStore

  class PosSystem {
    var params: PosParams
    var states: map<Address, Timeline<ValidatorState>>
    var totals: map<Address, Timeline<int>>
    var powers: map<Address, Timeline<int>>
    var bonds: map<BondId, Timeline<Bond>>
    var unbonds: map<BondId, Timeline<Unbond>>
    var sets: Timeline<ValidatorSet>
    var totalPower: Timeline<int>
    var slashes: map<Address, seq<Slash>>
    var balance: nat

    /** The state at the current epoch, which the ledger passes to every method. */
    ghost function State(epoch: nat): Pos
      reads this
    {
      Pos(params, epoch, states, totals, powers, bonds, unbonds, sets, totalPower, slashes, balance)
    }

    /** A method did what a transition says: the new state, or an error and no
        change. */
    ghost predicate Did(before: Pos, outcome: Outcome<Pos>, r: Outcome<()>)
      reads this
    {
      match outcome
      case Ok(s') => r == Ok(()) && State(before.epoch) == s'
      case Err(e) => r == Err(e) && State(before.epoch) == before
      case Panicked => r == Panicked && State(before.epoch) == before
    }

    method WriteValidator(v: GenesisValidator, current: nat)
      requires TryVotingPowerDelta(params, v.tokens).Some?
      modifies this`states, this`totals, this`powers, this`bonds
      ensures states == old(states)[v.address := InitAt(Candidate, current, 0)]
      ensures totals == old(totals)[v.address := InitAt(v.tokens, current, 0)]
      ensures powers == old(powers)[v.address := InitAt(VotingPower(params, v.tokens), current, 0)]
      ensures bonds == old(bonds)[BondId(v.address, v.address) := SelfBond(v.tokens, current)]
    {
      hide InitAt, VotingPower, TryVotingPowerDelta;
      DeltaIsPower(params, v.tokens);
      var state := new Epoched.InitAtGenesis(Candidate, current);
      var total := new EpochedDelta.InitAtIndex(v.tokens, current, 0, AddInts);
      var power := new EpochedDelta.InitAtIndex(TryVotingPowerDelta(params, v.tokens).value, current, 0, AddInts);
      var delta: Bond := map[current := v.tokens];
      var bond := new EpochedDelta.InitAtIndex(delta, current, 0, AddAmounts<nat>);
      var storedState := state.Store();
      var storedTotal := total.Store();
      var storedPower := power.Store();
      var storedBond := bond.Store();
      states := states[v.address := storedState];
      totals := totals[v.address := storedTotal];
      powers := powers[v.address := storedPower];
      bonds := bonds[BondId(v.address, v.address) := storedBond];
    }

    /** Writes the data of every genesis validator. */
    method WriteValidators(validators: seq<GenesisValidator>, current: nat)
      requires PowersFit(params, validators)
      modifies this`states, this`totals, this`powers, this`bonds
      ensures states == old(states) + GenesisStates(TokensOf(validators), current)
      ensures totals == old(totals) + GenesisTotals(TokensOf(validators), current)
      ensures powers == old(powers) + GenesisPowerLines(params, TokensOf(validators), current)
      ensures bonds == old(bonds) + GenesisBonds(TokensOf(validators), current)
    {
      hide InitAt, VotingPower, TokensOf, TryVotingPowerDelta, GenesisStates, GenesisTotals, GenesisPowerLines,
        GenesisBonds, SelfBond;
      NothingYet(params);
      NoLines(params, current);
      Unmerged(states);
      Unmerged(totals);
      Unmerged(powers);
      Unmerged(bonds);
      for i := 0 to |validators|
        invariant states == old(states) + GenesisStates(TokensOf(validators[..i]), current)
        invariant totals == old(totals) + GenesisTotals(TokensOf(validators[..i]), current)
        invariant powers == old(powers) + GenesisPowerLines(params, TokensOf(validators[..i]), current)
        invariant bonds == old(bonds) + GenesisBonds(TokensOf(validators[..i]), current)
      {
        TokensStep(validators, i);
        StepOver(old(State(current)), params, TokensOf(validators[..i]), validators[i].address, validators[i].tokens);
        WriteValidator(validators[i], current);
      }
      assert validators[..|validators|] == validators;
    }

    /** Writes the validator sets, the total voting power and the balance. */
    method WriteTotals(active: set<Weighted>, power: int, bonded: nat, current: nat)
      modifies this`sets, this`totalPower, this`balance
      ensures sets == InitAt(Trim(ValidatorSet(active, {}), params.maxValidatorSlots), current, 0)
      ensures totalPower == InitAt(power, current, 0) && balance == old(balance) + bonded
    {
      hide InitAt, Trim;
      var vs := TrimToSlots(active, params.maxValidatorSlots);
      var allSets := new Epoched.InitAtGenesis(vs, current);
      var allPower := new EpochedDelta.InitAtIndex(power, current, 0, AddInts);
      sets := allSets.Store();
      totalPower := allPower.Store();
      balance := balance + bonded;
    }

    /** Writes the genesis data over what is stored. Of validators with the same
        address the last one's data are kept, but all of them count in the totals. */
    method InitGenesis(params: PosParams, validators: seq<GenesisValidator>, current: nat) returns (r: Outcome<()>)
      modifies this
      ensures r.Ok? <==> PowersFit(params, validators)
      ensures r.IsFailure() ==>
        r == Err(VotingPowerOverflow) && State(current) == old(State(current)).(params := params)
      ensures r.Ok? ==> State(current) == GenesisOver(old(State(current)), params, validators, current)
    {
      hide InitAt, VotingPower, TokensOf, SumOf, Trim, PowersFit, GenesisStates, GenesisTotals, GenesisPowerLines,
        GenesisBonds, WeightsOf, PowerSum, TokenSum;
      this.params := params;
      var active, power, bonded := Accumulate(params, validators);
      if active.IsFailure() {
        return active.PropagateFailure();
      }
      WriteValidators(validators, current);
      WriteTotals(active.value, power, bonded, current);
      r := Ok(());
    }

    method IsInactive(v: Address, current: nat) returns (inactive: bool)
      requires v in states
      ensures inactive == EverInactive(states[v], current, current + params.pipelineLen)
    {
      var state := new Epoched.Load(states[v]);
      for e := current to current + params.pipelineLen
        invariant state.Value() == states[v]
        invariant forall x :: current <= x < e ==> T.Get(Later, states[v], x) != Some(Inactive)
      {
        var at := state.Get(e);
        if at == Some(Inactive) {
          return true;
        }
      }
      inactive := false;
    }

    /** Writes back the containers of a change of stake. */
    method WriteBack(validator: Address, w: Written)
      modifies this`sets, this`totals, this`powers, this`totalPower
      ensures sets == w.sets && totalPower == w.totalPower
      ensures totals == old(totals)[validator := w.total] && powers == old(powers)[validator := w.power]
    {
      sets, totalPower := w.sets, w.totalPower;
      totals := totals[validator := w.total];
      powers := powers[validator := w.power];
    }

    /** Pending now, a candidate at the pipeline offset. */
    method NewState(current: nat) returns (t: Timeline<ValidatorState>)
      ensures t == AddAt(Later, InitAt(Pending, current, 0), Candidate, current, params.pipelineLen, params.pipelineLen)
    {
      hide AddAt, InitAt;
      var state := new Epoched.InitAtGenesis(Pending, current);
      state.Set(Candidate, current, params.pipelineLen);
      t := state.Store();
    }

    /** The validator sets with a newcomer from the pipeline offset on. */
    method Join(address: Address, current: nat) returns (t: Timeline<ValidatorSet>)
      requires WindowsFit(State(current))
      ensures t == UpdateFrom(NewcomerAdder(address, params.maxValidatorSlots), sets, current, params.pipelineLen,
        params.unbondingLen)
    {
      hide UpdateFrom, NewcomerAdder;
      var all := new Epoched.Load(sets);
      all.UpdateFromOffset(NewcomerAdder(address, params.maxValidatorSlots), current, params.pipelineLen,
        params.unbondingLen);
      t := all.Store();
    }

    /** Zero from the pipeline offset on. */
    method NewDeltas(current: nat) returns (t: Timeline<int>)
      ensures t == InitAt(0, current, params.pipelineLen)
    {
      hide InitAt;
      var deltas := new EpochedDelta.InitAtIndex(0, current, params.pipelineLen, AddInts);
      t := deltas.Store();
    }

    method BecomeValidator(address: Address, rewardAddress: Address, current: nat) returns (r: Outcome<()>)
      requires WindowsFit(State(current))
      modifies this
      ensures Did(old(State(current)), L.BecomeValidator(old(State(current)), address, rewardAddress), r)
    {
      hide AddAt, UpdateFrom, InitAt, NewcomerAdder, Later, Fits;
      if address in states {
        return Err(AlreadyValidator);
      }
      if address == rewardAddress {
        return Err(StakingRewardAddressEqValidatorAddress);
      }
      var state := NewState(current);
      var total := NewDeltas(current);
      var power := NewDeltas(current);
      sets := Join(address, current);
      states := states[address := state];
      totals := totals[address := total];
      powers := powers[address := power];
      r := Ok(());
    }

    /** The bond with a new delta at the pipeline offset. */
    method AddToBond(id: BondId, amount: nat, current: nat) returns (t: Timeline<Bond>)
      ensures t == BondAfter(State(current), id, amount)
    {
      hide AddAt, InitAt;
      var value: Bond := map[current + params.pipelineLen := amount];
      if id in bonds {
        var bond := new EpochedDelta.Load(bonds[id], AddAmounts<nat>);
        bond.AddAtOffset(value, current, params.pipelineLen, params.pipelineLen);
        t := bond.Store();
      } else {
        var bond := new EpochedDelta.InitAtIndex(value, current, params.pipelineLen, AddAmounts<nat>);
        t := bond.Store();
      }
    }

    /** Why a bonding is refused before anything is touched. */
    method RefuseBond(source: Option<Address>, validator: Address, amount: nat, current: nat)
      returns (e: Option<PosError>)
      ensures e == BondRefusal(State(current), source, validator, amount)
    {
      hide EverInactive;
      if source.Some? && source.value != validator && source.value in states {
        return Some(SourceMustNotBeAValidator);
      }
      if amount == 0 {
        return Some(ZeroAmount);
      }
      if validator !in states {
        return Some(NotAValidator);
      }
      var inactive := IsInactive(validator, current);
      e := if inactive then Some(InactiveValidator) else None;
    }

    method BondTokens(source: Option<Address>, validator: Address, amount: nat, current: nat) returns (r: Outcome<()>)
      requires WindowsFit(State(current))
      modifies this
      ensures Did(old(State(current)), L.BondTokens(old(State(current)), source, validator, amount), r)
    {
      hide BondAfter, Rewrite, L.BondTokens, BondRefusal, Fits;
      var refusal := RefuseBond(source, validator, amount, current);
      if refusal.Some? {
        BondRefused(State(current), source, validator, amount);
        return Err(refusal.value);
      }
      var id := BondId(source.UnwrapOr(validator), validator);
      var bond := AddToBond(id, amount, current);
      var w := RewriteStake(params, sets, Find(totals, validator), Find(powers, validator), totalPower, validator,
        amount, params.pipelineLen, current);
      BondGoes(State(current), source, validator, amount, w);
      if w.IsFailure() {
        return w.PropagateFailure();
      }
      if balance + amount > U64_MAX {
        return Panicked;
      }
      bonds := bonds[id := bond];
      WriteBack(validator, w.value);
      balance := balance + amount;
      r := Ok(());
    }

    /** Records a slash and takes the tokens out of the system's account, if it has
        them. */
    method RecordSlash(validator: Address, slash: Params.Slash, slashed: nat)
      modifies this`slashes, this`balance
      ensures slashes == old(slashes)[validator := (if validator in old(slashes) then old(slashes)[validator]
        else []) + [slash]]
      ensures balance == if slashed <= old(balance) then old(balance) - slashed else old(balance)
    {
      var before := if validator in slashes then slashes[validator] else [];
      slashes := slashes[validator := before + [slash]];
      if slashed <= balance {
        balance := balance - slashed;
      }
    }

    /** Why a slash is refused before anything is touched, or the stake. */
    method RefuseSlash(validator: Address, current: nat) returns (e: Option<PosError>, stake: int)
      ensures e == SlashRefusal(State(current), validator)
      ensures e.None? ==> stake == At(totals[validator], current)
    {
      hide T.Get;
      stake := 0;
      if validator !in totals {
        return Some(ValidatorHasNoTotalDeltas), stake;
      }
      if validator !in powers {
        return Some(ValidatorHasNoVotingPower), stake;
      }
      var total := new EpochedDelta.Load(totals[validator], AddInts);
      var at := total.Get(current);
      stake := at.UnwrapOr(0);
      e := if stake < 0 then Some(NegativeStake(stake)) else None;
    }

    method Slash(validator: Address, slashType: SlashType, evidenceEpoch: nat, current: nat) returns (r: Outcome<()>)
      requires WindowsFit(State(current))
      modifies this
      ensures Did(old(State(current)), SlashValidator(old(State(current)), validator, slashType, evidenceEpoch), r)
    {
      hide Rewrite, MulBpsSigned, SlashValidator, SlashRate, Fits, SlashRefusal, At;
      var refusal, stake := RefuseSlash(validator, current);
      SlashRefused(State(current), validator, slashType, evidenceEpoch);
      if refusal.Some? {
        return Err(refusal.value);
      }
      var rate := SlashRate(params, slashType);
      var slashed := MulBpsSigned(rate, stake);
      var w := RewriteStake(params, sets, Find(totals, validator), Find(powers, validator), totalPower, validator,
        -slashed, params.pipelineLen, current);
      SlashGoes(State(current), validator, slashType, evidenceEpoch, slashed, w);
      if w.IsFailure() {
        return w.PropagateFailure();
      }
      if !FitsU64(slashed) {
        return Err(InvalidSlashChange(slashed));
      }
      WriteBack(validator, w.value);
      RecordSlash(validator, Params.Slash(evidenceEpoch, slashType, rate), slashed);
      r := Ok(());
    }

    /** Stored bonds and unbonds fit their windows. */
    ghost predicate BondsFit()
      reads this
    {
      && (forall id :: id in bonds ==> Fits(bonds[id], params.pipelineLen))
      && (forall id :: id in unbonds ==> Fits(unbonds[id], params.unbondingLen))
    }

    /** Moves tokens from a bond to its unbond, without writing either back. */
    method MoveToUnbond(id: BondId, amount: nat, current: nat)
      returns (bond: Timeline<Bond>, unbond: Timeline<Unbond>, worth: nat, empty: bool, ghost taken: seq<Bond>)
      requires BondsFit() && id in bonds && WindowsFit(State(current))
      requires 0 < amount <= SumOf(Total(T.Get(AddAmounts<nat>, bonds[id], current + params.pipelineLen)))
      requires forall x :: x in bonds ==> bonds[x].lastUpdate <= current
      ensures Takeable(State(current), id, amount, taken)
      ensures bond == BondLeft(State(current), id, taken) && unbond == UnbondAfter(State(current), id, taken)
      ensures worth == WorthInAll(taken, SlashesOf(State(current), id.validator))
      ensures empty <==> SumOf(Total(T.Get(AddAmounts<nat>, bond, current + params.pipelineLen))) == 0
    {
      hide AddAt, Advance, Takes, WorthInAll, TakenInAll, LeftOvers, SumOf, AddAmounts, InitAt, Ending, WithTaken,
        T.Get;
      var b := new EpochedDelta.Load(bonds[id], AddAmounts<nat>);
      var u: EpochedDelta<Unbond>;
      if id in unbonds {
        u := new EpochedDelta.Load(unbonds[id], AddAmounts<(nat, nat)>);
      } else {
        u := new EpochedDelta.InitAtIndex(map[], current, params.unbondingLen, AddAmounts<(nat, nat)>);
        InitAtFits<Unbond>(map[], current, params.unbondingLen);
      }
      var slashesOf := if id.validator in slashes then slashes[id.validator] else [];
      ghost var before := u.Value();
      worth, taken := TakeTokens(b, amount, slashesOf, current + params.unbondingLen - 1, u, current,
        params.pipelineLen, params.unbondingLen);
      SomethingTaken(State(current), id, amount, taken);
      WithSomethingTaken(before, TakenInAll(taken), current + params.unbondingLen - 1, current, params.unbondingLen);
      var left := b.Get(current + params.pipelineLen);
      var sum := SumDeltas(left.UnwrapOr(map[]));
      empty := sum == 0;
      bond := b.Store();
      unbond := u.Store();
    }

    /** Why an unbonding is refused before anything is touched. */
    method RefuseUnbond(id: BondId, amount: nat, current: nat) returns (e: Option<PosError>)
      ensures e == UnbondRefusal(State(current), id, amount)
    {
      hide SumOf, AddAmounts, T.Get;
      if id !in bonds {
        return Some(NoBondFound);
      }
      if id.validator !in totals {
        return Some(ValidatorHasNoBonds);
      }
      if id.validator !in powers {
        return Some(ValidatorHasNoVotingPower);
      }
      if amount == 0 {
        return Some(ZeroAmount);
      }
      var stored := new EpochedDelta.Load(bonds[id], AddAmounts<nat>);
      var total := stored.Get(current + params.pipelineLen);
      var bonded := SumDeltas(total.UnwrapOr(map[]));
      if amount > bonded {
        return Some(UnbondAmountGreaterThanBond(amount, bonded));
      }
      e := None;
    }

    /** Writes back a bond and its unbond; an emptied bond is deleted. */
    method WriteUnbond(id: BondId, bond: Timeline<Bond>, unbond: Timeline<Unbond>, empty: bool)
      modifies this`bonds, this`unbonds
      ensures bonds == if empty then old(bonds) - {id} else old(bonds)[id := bond]
      ensures unbonds == old(unbonds)[id := unbond]
    {
      if !empty {
        bonds := bonds[id := bond];
      } else {
        bonds := bonds - {id};
      }
      unbonds := unbonds[id := unbond];
    }

    method UnbondTokens(source: Option<Address>, validator: Address, amount: nat, current: nat)
      returns (r: Outcome<()>, ghost taken: seq<Bond>)
      requires WindowsFit(State(current)) && BondsFit()
      requires forall x :: x in bonds ==> bonds[x].lastUpdate <= current
      modifies this
      ensures Did(old(State(current)), L.UnbondTokens(old(State(current)), source, validator, amount, taken), r)
      ensures !r.Err? ==> Takeable(old(State(current)), IdOf(source, validator), amount, taken)
    {
      hide Takeable, WorthInAll, BondLeft, UnbondAfter, SumOf, AddAmounts, T.Get, Rewrite, L.UnbondTokens,
        UnbondRefusal, SlashesOf, Fits, Long, Total, Advance;
      var id := BondId(source.UnwrapOr(validator), validator);
      taken := [];
      var refusal := RefuseUnbond(id, amount, current);
      UnbondRefused(State(current), source, validator, amount, taken);
      if refusal.Some? {
        return Err(refusal.value), taken;
      }
      var bond, unbond, worth, empty, t := MoveToUnbond(id, amount, current);
      taken := t;
      var w := RewriteStake(params, sets, Find(totals, validator), Find(powers, validator), totalPower, validator,
        0 - worth as int, params.unbondingLen, current);
      TakeableLength(State(current), id, amount, taken);
      UnbondGoes(State(current), source, validator, amount, taken, w);
      if w.IsFailure() {
        return w.PropagateFailure(), taken;
      }
      WriteUnbond(id, bond, unbond, empty);
      WriteBack(validator, w.value);
      r := Ok(());
    }

    /** What is due of an unbond. */
    method ReadUnbond(id: BondId, current: nat) returns (due: Option<Unbond>)
      requires id in unbonds
      ensures due == T.Get(AddAmounts<(nat, nat)>, unbonds[id], current)
    {
      hide AddAmounts, T.Get;
      var unbond := new EpochedDelta.Load(unbonds[id], AddAmounts<(nat, nat)>);
      due := unbond.Get(current);
    }

    /** An unbond without what is due, and the tokens that are left in it. */
    method LeftUnbond(id: BondId, current: nat) returns (left: Timeline<Unbond>, sum: nat)
      requires id in unbonds && WindowsFit(State(current))
      ensures left == DeleteHead(AddAmounts<(nat, nat)>, unbonds[id], current, params.unbondingLen)
      ensures sum == SumOf(Total(T.Get(AddAmounts<(nat, nat)>, left, current + params.unbondingLen)))
    {
      hide DeleteHead, SumOf, AddAmounts, T.Get;
      var unbond := new EpochedDelta.Load(unbonds[id], AddAmounts<(nat, nat)>);
      unbond.DeleteCurrent(current, params.unbondingLen);
      var all := unbond.Get(current + params.unbondingLen);
      sum := SumDeltas(all.UnwrapOr(map[]));
      left := unbond.Store();
    }

    /** Pays out what is due, and yields what was slashed of it. */
    method WithdrawTokens(source: Option<Address>, validator: Address, current: nat) returns (r: Outcome<nat>)
      requires WindowsFit(State(current))
      modifies this
      ensures match Withdraw(old(State(current)), source, validator)
        case Ok(w) => r == Ok(w.slashed) && State(current) == w.pos
        case Err(e) => r == Err(e) && State(current) == old(State(current))
        case Panicked => r == Panicked && State(current) == old(State(current))
    {
      hide DeleteHead, SumOf, AddAmounts, T.Get, Withdrawable, SlashedFrom;
      var id := BondId(source.UnwrapOr(validator), validator);
      if id !in unbonds {
        return Err(NoUnbondFound);
      }
      var due := ReadUnbond(id, current);
      if due.None? {
        return Err(NoWithdrawableUnbond);
      }
      var slashesOf := if validator in slashes then slashes[validator] else [];
      var withdrawn, slashed := WithdrawDue(due.value, slashesOf);
      var left, sum := LeftUnbond(id, current);
      if withdrawn > balance {
        return Panicked;
      }
      if sum != 0 {
        unbonds := unbonds[id := left];
      } else {
        unbonds := unbonds - {id};
      }
      balance := balance - withdrawn;
      r := Ok(slashed);
    }

    /** The validator needs no update: it is unchanged, or new and without power. */
    method Skips(w: Weighted, same: bool, current: nat) returns (skip: bool)
      ensures skip == Skipped(State(current), w, same, current)
    {
      hide T.Get;
      if current == 0 {
        return false;
      }
      var all := new Epoched.Load(sets);
      var previous := all.Get(current - 1);
      if previous.None? {
        return false;
      }
      if same {
        return true;
      }
      if w.power == 0 && w.address in states {
        var state := new Epoched.Load(states[w.address]);
        var at := state.Get(current - 1);
        return at == Some(Pending);
      }
      skip := false;
    }

    /** The set of an epoch, empty when there is none. */
    method ReadSet(epoch: nat) returns (vs: ValidatorSet)
      ensures forall current :: vs == SetAt(State(current), epoch)
    {
      hide T.Get;
      var all := new Epoched.Load(sets);
      var at := all.Get(epoch);
      vs := at.UnwrapOr(ValidatorSet({}, {}));
    }

    method SendActive(current: nat) returns (updates: seq<Update>)
      ensures forall u :: u in updates <==> u in ActiveUpdates(State(current), current)
      ensures Once(updates) && forall u :: u in updates ==> u.Active?
    {
      hide Skipped, SetAt;
      var cur := ReadSet(current);
      var prev := ValidatorSet({}, {});
      if current > 0 {
        prev := ReadSet(current - 1);
      }
      updates := [];
      var rest := cur.active;
      while rest != {}
        invariant rest <= cur.active && Once(updates) && forall u :: u in updates ==> u.Active?
        invariant forall u :: u in updates <==> u in ActiveAmong(State(current), cur.active - rest, current)
      {
        var w := First(rest);
        var skip := Skips(w, w in prev.active, current);
        assert cur.active - (rest - {w}) == (cur.active - rest) + {w};
        rest := rest - {w};
        if !skip {
          OnceMore(updates, Active(w.address, w.power));
          updates := updates + [Active(w.address, w.power)];
        }
      }
      assert cur.active - rest == cur.active;
    }

    method SendInactive(current: nat) returns (updates: seq<Update>)
      ensures forall u :: u in updates <==> u in Deactivations(State(current), current)
      ensures forall u :: u in updates ==> u.Deactivated?
      ensures UniqueAddresses(SetAt(State(current), current).inactive) ==> Once(updates)
    {
      hide Skipped, SetAt;
      var cur := ReadSet(current);
      var prev := ValidatorSet({}, {});
      if current > 0 {
        prev := ReadSet(current - 1);
      }
      updates := [];
      var rest := cur.inactive;
      while rest != {}
        invariant rest <= cur.inactive && forall u :: u in updates ==> u.Deactivated?
        invariant UniqueAddresses(cur.inactive) ==> Once(updates)
        invariant forall u :: u in updates <==> u in InactiveAmong(State(current), cur.inactive - rest, current)
      {
        var w := First(rest);
        var skip := Skips(w, w in prev.inactive, current);
        assert cur.inactive - (rest - {w}) == (cur.inactive - rest) + {w};
        rest := rest - {w};
        if !skip {
          if UniqueAddresses(cur.inactive) {
            OnceMore(updates, Deactivated(w.address));
          }
          updates := updates + [Deactivated(w.address)];
        }
      }
      assert cur.inactive - rest == cur.inactive;
    }

    /** The updates for the consensus engine, the active validators first. Without a
        validator set for the epoch the program aborts. */
    method ValidatorSetUpdate(current: nat) returns (r: Outcome<seq<Update>>)
      ensures r.Panicked? <==> T.Get(Later, sets, current).None?
      ensures !r.Err?
      ensures r.Ok? ==>
        && (forall u :: u in r.value <==>
          u in ActiveUpdates(State(current), current) + Deactivations(State(current), current))
        && (exists n :: 0 <= n <= |r.value| && ActiveBefore(r.value, n))
        && (UniqueAddresses(SetAt(State(current), current).inactive) ==> Lists(r.value, State(current), current))
    {
      hide ActiveUpdates, Deactivations, SetAt, UniqueAddresses, T.Get;
      var all := new Epoched.Load(sets);
      var at := all.Get(current);
      if at.None? {
        return Panicked;
      }
      var active := SendActive(current);
      var inactive := SendInactive(current);
      if Once(inactive) {
        OnceBoth(active, inactive);
      }
      ActiveFirst(active, inactive);
      r := Ok(active + inactive);
    }
  }

  /** Active updates up to a position and removals after it. */
  ghost predicate ActiveBefore(updates: seq<Update>, n: nat) {
    forall i :: 0 <= i < |updates| ==> (updates[i].Active? <==> i < n)
  }

  lemma ActiveFirst(a: seq<Update>, b: seq<Update>)
    requires (forall u :: u in a ==> u.Active?) && (forall u :: u in b ==> u.Deactivated?)
    ensures ActiveBefore(a + b, |a|)
  {
    forall i | 0 <= i < |a + b| ensures (a + b)[i].Active? <==> i < |a| {
      if i < |a| {
        assert a[i] in a;
      } else {
        assert b[i - |a|] in b;
      }
    }
  }

  /** The updates for some of the active validators. */
  ghost function ActiveAmong(s: Pos, some: set<Weighted>, epoch: nat): set<Update> {
    set w | w in some && !Skipped(s, w, PrevActive(s, w, epoch), epoch) :: Active(w.address, w.power)
  }

  ghost function InactiveAmong(s: Pos, some: set<Weighted>, epoch: nat): set<Update> {
    set w | w in some && !Skipped(s, w, PrevInactive(s, w, epoch), epoch) :: Deactivated(w.address)
  }

  ghost predicate Once(updates: seq<Update>) {
    forall i, j :: 0 <= i < j < |updates| ==> updates[i] != updates[j]
  }

  lemma OnceMore(updates: seq<Update>, u: Update)
    requires Once(updates) && u !in updates
    ensures Once(updates + [u])
  {
    forall i, j | 0 <= i < j < |updates + [u]| ensures (updates + [u])[i] != (updates + [u])[j] {
      assert updates[i] in updates;
    }
  }

  lemma OnceBoth(a: seq<Update>, b: seq<Update>)
    requires Once(a) && Once(b) && forall u :: u in a ==> u !in b
    ensures Once(a + b)
  {
    forall i, j | 0 <= i < j < |a + b| ensures (a + b)[i] != (a + b)[j] {
      if i < |a| <= j {
        assert a[i] in a && b[j - |a|] in b;
      }
    }
  }

  /** When tokens are taken, some key is drawn on. */
  lemma SomethingTaken(s: Pos, id: BondId, amount: nat, taken: seq<Bond>)
    requires Takeable(s, id, amount, taken) && Fits(s.bonds[id], s.params.pipelineLen)
    requires s.bonds[id].lastUpdate <= s.epoch
    requires 0 < amount <= SumOf(Total(T.Get(AddAmounts<nat>, s.bonds[id], s.epoch + s.params.pipelineLen)))
    ensures TakenInAll(taken) != map[]
  {
    hide SumOf, AddAmounts, T.Get, Advance, TakenInAll, Takes;
    var u := Advance(AddAmounts<nat>, s.bonds[id], s.epoch, s.params.pipelineLen);
    AdvanceShape(AddAmounts<nat>, s.bonds[id], s.epoch, s.params.pipelineLen);
    TakenSum(u.data, amount, taken);
    AllOfFold(u, s.params.pipelineLen);
    AllOfAdvance(s.bonds[id], s.epoch, s.params.pipelineLen);
    AllOfAt(s.bonds[id], s.params.pipelineLen, s.epoch + s.params.pipelineLen);
    SumOfNothing<nat>();
  }

  lemma WithSomethingTaken(unbond: Timeline<Unbond>, taken: Bond, end: nat, current: nat, off: nat)
    requires taken != map[]
    ensures WithTaken(unbond, taken, end, current, off) ==
      AddAt(AddAmounts<(nat, nat)>, unbond, Ending(taken, end), current, off, off)
  {
  }

  /** The checks that precede an unbonding. */
  ghost function UnbondRefusal(s: Pos, id: BondId, amount: nat): Option<PosError> {
    if id !in s.bonds then Some(NoBondFound)
    else if id.validator !in s.totals then Some(ValidatorHasNoBonds)
    else if id.validator !in s.powers then Some(ValidatorHasNoVotingPower)
    else if amount == 0 then Some(ZeroAmount)
    else
      var bonded := SumOf(Total(T.Get(AddAmounts<nat>, s.bonds[id], s.epoch + s.params.pipelineLen)));
      if amount > bonded then Some(UnbondAmountGreaterThanBond(amount, Max(bonded, 0))) else None
  }

  lemma UnbondRefused(s: Pos, source: Option<Address>, validator: Address, amount: nat, taken: seq<Bond>)
    requires WindowsFit(s)
    ensures UnbondRefusal(s, IdOf(source, validator), amount).Some? ==>
      L.UnbondTokens(s, source, validator, amount, taken) ==
        Err(UnbondRefusal(s, IdOf(source, validator), amount).value)
    ensures UnbondRefusal(s, IdOf(source, validator), amount).None? ==>
      && IdOf(source, validator) in s.bonds
      && 0 < amount <= SumOf(Total(T.Get(AddAmounts<nat>, s.bonds[IdOf(source, validator)],
        s.epoch + s.params.pipelineLen)))
  {
    hide SumOf, AddAmounts, T.Get, Advance, AddAt, ChangeStake, LeftOvers, WorthInAll, TakenInAll;
  }

  lemma TakeableLength(s: Pos, id: BondId, amount: nat, taken: seq<Bond>)
    requires Takeable(s, id, amount, taken)
    ensures Long(s, id, taken)
  {
    hide SumOf, AddAmounts, Advance, TakesFrom;
  }

  /** As many deltas are taken as the bond has entries. */
  ghost predicate Long(s: Pos, id: BondId, taken: seq<Bond>) {
    id in s.bonds && |taken| == |Advance(AddAmounts<nat>, s.bonds[id], s.epoch, s.params.pipelineLen).data|
  }

  /** The state that an unbonding writes. */
  ghost function Unbonded(s: Pos, id: BondId, taken: seq<Bond>, w: Written): Pos
    requires Long(s, id, taken) && s.params.unbondingLen > 0
  {
    var bond := BondLeft(s, id, taken);
    s.(sets := w.sets, totalPower := w.totalPower,
       totals := s.totals[id.validator := w.total],
       powers := s.powers[id.validator := w.power],
       bonds := if SumOf(Total(T.Get(AddAmounts<nat>, bond, s.epoch + s.params.pipelineLen))) != 0
         then s.bonds[id := bond] else s.bonds - {id},
       unbonds := s.unbonds[id := UnbondAfter(s, id, taken)])
  }

  lemma UnbondGoes(s: Pos, source: Option<Address>, validator: Address, amount: nat, taken: seq<Bond>,
                   w: Outcome<Written>)
    requires WindowsFit(s)
    requires Long(s, IdOf(source, validator), taken) && UnbondRefusal(s, IdOf(source, validator), amount).None?
    requires w == Rewrite(s.params, s.sets, Find(s.totals, validator), Find(s.powers, validator), s.totalPower,
      validator,
      0 - WorthInAll(taken, SlashesOf(s, validator)) as int, s.params.unbondingLen, s.epoch)
    ensures L.UnbondTokens(s, source, validator, amount, taken) ==
      if w.IsFailure() then w.PropagateFailure() else Ok(Unbonded(s, IdOf(source, validator), taken, w.value))
  {
    hide SumOf, AddAmounts, T.Get, Advance, AddAt, Rewrite, LeftOvers, WorthInAll, TakenInAll, Ending, InitAt,
      SlashesOf;
  }

  /** The checks that precede a bonding. */
  ghost function BondRefusal(s: Pos, source: Option<Address>, validator: Address, amount: nat): Option<PosError> {
    if source.Some? && source.value != validator && source.value in s.states then Some(SourceMustNotBeAValidator)
    else if amount == 0 then Some(ZeroAmount)
    else if validator !in s.states then Some(NotAValidator)
    else if EverInactive(s.states[validator], s.epoch, s.epoch + s.params.pipelineLen) then Some(InactiveValidator)
    else None
  }

  lemma BondRefused(s: Pos, source: Option<Address>, validator: Address, amount: nat)
    requires WindowsFit(s) && BondRefusal(s, source, validator, amount).Some?
    ensures L.BondTokens(s, source, validator, amount) == Err(BondRefusal(s, source, validator, amount).value)
  {
    hide EverInactive, AddAt, InitAt, ChangeStake, Fits;
  }

  lemma BondGoes(s: Pos, source: Option<Address>, validator: Address, amount: nat, w: Outcome<Written>)
    requires WindowsFit(s) && BondRefusal(s, source, validator, amount).None?
    requires w == Rewrite(s.params, s.sets, Find(s.totals, validator), Find(s.powers, validator), s.totalPower,
      validator, amount, s.params.pipelineLen, s.epoch)
    ensures L.BondTokens(s, source, validator, amount) ==
      if w.IsFailure() then w.PropagateFailure()
      else if s.balance + amount > U64_MAX then Panicked
      else
        var id := IdOf(source, validator);
        Ok(s.(sets := w.value.sets, totalPower := w.value.totalPower,
              totals := s.totals[validator := w.value.total], powers := s.powers[validator := w.value.power],
              bonds := s.bonds[id := BondAfter(s, id, amount)], balance := s.balance + amount))
  {
    hide EverInactive, AddAt, InitAt, Rewrite, Fits;
  }

  /** The checks that precede a slash. */
  ghost function SlashRefusal(s: Pos, validator: Address): Option<PosError> {
    if validator !in s.totals then Some(ValidatorHasNoTotalDeltas)
    else if validator !in s.powers then Some(ValidatorHasNoVotingPower)
    else if At(s.totals[validator], s.epoch) < 0 then Some(NegativeStake(At(s.totals[validator], s.epoch)))
    else None
  }

  lemma SlashRefused(s: Pos, validator: Address, slashType: SlashType, evidenceEpoch: nat)
    requires WindowsFit(s)
    ensures SlashRefusal(s, validator).Some? ==>
      SlashValidator(s, validator, slashType, evidenceEpoch) == Err(SlashRefusal(s, validator).value)
    ensures SlashRefusal(s, validator).None? ==>
      validator in s.totals && validator in s.powers && At(s.totals[validator], s.epoch) >= 0
  {
    hide ChangeStake, MulBpsSigned, T.Get, Fits;
  }

  lemma SlashGoes(s: Pos, validator: Address, slashType: SlashType, evidenceEpoch: nat, slashed: int,
                  w: Outcome<Written>)
    requires WindowsFit(s) && validator in s.totals && validator in s.powers && At(s.totals[validator], s.epoch) >= 0
    requires slashed == MulBpsSigned(SlashRate(s.params, slashType), At(s.totals[validator], s.epoch))
    requires w == Rewrite(s.params, s.sets, Find(s.totals, validator), Find(s.powers, validator), s.totalPower,
      validator, -slashed, s.params.pipelineLen, s.epoch)
    ensures SlashValidator(s, validator, slashType, evidenceEpoch) ==
      if w.IsFailure() then w.PropagateFailure()
      else if !FitsU64(slashed) then Err(InvalidSlashChange(slashed))
      else
        Ok(s.(sets := w.value.sets, totalPower := w.value.totalPower,
              totals := s.totals[validator := w.value.total], powers := s.powers[validator := w.value.power],
              slashes := s.slashes[validator := SlashesOf(s, validator)
                + [Params.Slash(evidenceEpoch, slashType, SlashRate(s.params, slashType))]],
              balance := if slashed <= s.balance then s.balance - slashed else s.balance))
  {
    hide Rewrite, MulBpsSigned, T.Get, Fits, SlashRate, SlashesOf;
  }
}

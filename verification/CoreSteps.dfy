/** Every transition keeps the core invariant; genesis establishes it. */
module CoreSteps {
  import opened Options
  import opened Timelines
  import opened Sums
  import opened Params
  import opened ValidatorSets
  import opened Ledger
  import opened StakeViews
  import opened CoreInvariant

  /** The fields that the core invariant is about. */
  ghost predicate SameCore(s: Pos, s': Pos) {
    && s'.params == s.params && s'.epoch == s.epoch && s'.states == s.states && s'.totals == s.totals
    && s'.powers == s.powers && s'.sets == s.sets && s'.totalPower == s.totalPower
  }

  lemma CoreFrame(s: Pos, s': Pos)
    requires Core(s) && SameCore(s, s')
    ensures Core(s')
  {
    hide At, Get, VotingPower, WellFormed, StateLine, SumOf, Stake, Power, Joined, Valid;
    forall v, e {:trigger Stake(s', v, e)}
      ensures Stake(s', v, e) == Stake(s, v, e) && Power(s', v, e) == Power(s, v, e)
    {
      FrameStake(s, s', v, e);
    }
    forall e | s'.epoch <= e ensures SetOk(s', e) && At(s'.totalPower, e) == SumOf(PowersAt(s', e)) {
      assert SetOk(s, e);
      MembersSame(s, s', e);
      SamePowers(s, s', e);
    }
    forall v, e | v in s'.powers && s'.epoch <= e ensures Power(s', v, e) == Weight(s', v, e) {
      assert Power(s, v, e) == Weight(s, v, e);
      FrameStake(s, s', v, e);
    }
    forall v, e | v in s'.totals && s'.epoch <= e ensures FitsU64(Stake(s', v, e)) {
      FrameStake(s, s', v, e);
    }
  }

  lemma FrameStake(s: Pos, s': Pos, v: Address, epoch: nat)
    requires SameCore(s, s')
    ensures Stake(s', v, epoch) == Stake(s, v, epoch) && Power(s', v, epoch) == Power(s, v, epoch)
  {
  }

  lemma SamePowers(s: Pos, s': Pos, epoch: nat)
    requires s'.powers == s.powers
    ensures PowersAt(s', epoch) == PowersAt(s, epoch)
  {
    hide At;
  }

  // ---------- transitions ----------

  lemma BondCore(s: Pos, source: Option<Address>, v: Address, amount: nat, s': Pos)
    requires Core(s) && BondTokens(s, source, v, amount) == Ok(s')
    ensures Core(s')
  {
    hide ChangeStake, Get, VotingPower, SetsTrack, StakesFit, SetsOk, PowersFollow, TotalPowerOk, StateLine, AddAt;
    var t := ChangeStake(s, v, amount, s.params.pipelineLen).value;
    ChangeCore(s, v, amount, s.params.pipelineLen, t);
    CoreFrame(t, s');
  }

  lemma UnbondCore(s: Pos, source: Option<Address>, v: Address, amount: nat, taken: seq<Bond>, s': Pos)
    requires Core(s) && UnbondTokens(s, source, v, amount, taken) == Ok(s')
    ensures Core(s')
  {
    hide ChangeStake, Get, VotingPower, SetsTrack, StakesFit, SetsOk, PowersFollow, TotalPowerOk, StateLine, AddAt,
      Advance, SumOf, WorthInAll, LeftOvers, TakenInAll, Ending, InitAt, SlashesOf, MaxTotalVotingPower, DeltaAt,
      AddAmounts;
    var off := s.params.unbondingLen;
    var worth := 0 - WorthInAll(taken, SlashesOf(s, v)) as int;
    var t := ChangeStake(s, v, worth, off).value;
    ChangeCore(s, v, worth, off, t);
    CoreFrame(t, s');
  }

  lemma SlashCore(s: Pos, v: Address, slashType: SlashType, evidenceEpoch: nat, s': Pos)
    requires Core(s) && SlashValidator(s, v, slashType, evidenceEpoch) == Ok(s')
    ensures Core(s')
  {
    hide ChangeStake, At, VotingPower, SetsTrack, StakesFit, SetsOk, PowersFollow, TotalPowerOk, StateLine, AddAt,
      MulBps;
    var pipeline := s.params.pipelineLen;
    var slashed := MulBpsSigned(SlashRate(s.params, slashType), At(s.totals[v], s.epoch));
    var t := ChangeStake(s, v, -slashed, pipeline).value;
    ChangeCore(s, v, -slashed, pipeline, t);
    CoreFrame(t, s');
  }

  lemma WithdrawCore(s: Pos, source: Option<Address>, v: Address, s': Pos)
    requires Core(s) && WithdrawTokens(s, source, v) == Ok(s')
    ensures Core(s')
  {
    hide Get, VotingPower, SetsTrack, StakesFit, SetsOk, PowersFollow, TotalPowerOk, StateLine, DeleteHead, SumOf,
      Withdrawable;
    CoreFrame(s, s');
  }

  /** A new epoch brings nothing that the state did not already provide for. */
  lemma NextEpochCore(s: Pos)
    requires Core(s)
    ensures Core(s.(epoch := s.epoch + 1))
  {
    hide At, Get, VotingPower, WellFormed, StateLine, SumOf, Joined, Valid;
    var s' := s.(epoch := s.epoch + 1);
    forall v, e | v in s'.totals && s'.epoch <= e ensures FitsU64(Stake(s', v, e)) {
      assert FitsU64(Stake(s, v, e));
    }
    forall e | s'.epoch <= e ensures SetOk(s', e) && At(s'.totalPower, e) == SumOf(PowersAt(s', e)) {
      assert SetOk(s, e);
      MembersSame(s, s', e);
      SamePowers(s, s', e);
    }
    forall v, e | v in s'.powers && s'.epoch <= e ensures Power(s', v, e) == Weight(s', v, e) {
      assert Power(s, v, e) == Weight(s, v, e);
    }
  }

  // ---------- new validators ----------

  lemma {:induction false} NewStateLine(current: nat, pipeline: nat)
    ensures var t := AddAt(Later, InitAt(Pending, current, 0), Candidate, current, pipeline, pipeline);
      t.lastUpdate == current && Fits(t, pipeline) && StateLine(t, pipeline) &&
      forall e :: current <= e ==> Get(Later, t, e) == Some(if e < current + pipeline then Pending else Candidate)
  {
    hide AddAt, Get, InitAt;
    var init := InitAt(Pending, current, 0);
    var t := AddAt(Later, init, Candidate, current, pipeline, pipeline);
    InitAtShape(Pending, current, 0);
    AddAtShape(Later, init, Candidate, current, pipeline, pipeline);
    LaterLaws<ValidatorState>();
    forall e | current <= e ensures Get(Later, t, e) == Some(if e < current + pipeline then Pending else Candidate) {
      var x := Min(e, current + pipeline);
      AddAtTarget(Later, init, Candidate, current, pipeline, pipeline, x);
      InitAtGet(Later, Pending, current, 0, x);
      if x < e {
        PastWindow(Later, t, pipeline, x, e);
      }
    }
  }

  lemma InitAtShape<T>(value: T, current: nat, i: nat)
    ensures var t := InitAt(value, current, i);
      t.lastUpdate == current && Fits(t, i) &&
      forall x :: DeltaAt(t, x) == if x == current + i then Some(value) else None
  {
  }

  /** The newcomer has no stake, and the sets gain it from the pipeline on. */
  ghost predicate Became(s: Pos, a: Address, reward: Address, s': Pos) {
    && Core(s) && a !in s.states && BecomeValidator(s, a, reward) == Ok(s')
  }

  lemma BecameWindows(s: Pos, a: Address, reward: Address, s': Pos)
    requires Became(s, a, reward, s')
    ensures Windows(s')
  {
    hide AddAt, Get, InitAt, UpdateFrom, StakesFit, SetsOk, PowersFollow, TotalPowerOk, StateLine, DeltaAt, SetsTrack;
    var c, pipeline, off := s.epoch, s.params.pipelineLen, s.params.unbondingLen;
    var f := NewcomerAdder(a, s.params.maxValidatorSlots);
    NewStateLine(c, pipeline);
    InitAtShape(0, c, pipeline);
    UpdateFromDelta(f, s.sets, c, pipeline, off, c);
    SetsPresent(s, c);
  }

  lemma BecameTrack(s: Pos, a: Address, reward: Address, s': Pos)
    requires Became(s, a, reward, s')
    ensures SetsTrack(s')
  {
    hide AddAt, Get, InitAt, UpdateFrom, StakesFit, SetsOk, PowersFollow, TotalPowerOk, StateLine, DeltaAt;
    var c, pipeline, off := s.epoch, s.params.pipelineLen, s.params.unbondingLen;
    var f := NewcomerAdder(a, s.params.maxValidatorSlots);
    InitAtShape(0, c, pipeline);
    UpdateFromDelta(f, s.sets, c, pipeline, off, c);
    forall v, x | v in s'.totals && x > s'.sets.lastUpdate && DeltaAt(s'.totals[v], x).Some?
      ensures DeltaAt(s'.sets, x).Some?
    {
      UpdateFromDelta(f, s.sets, c, pipeline, off, x);
      SetsPresent(s, x);
    }
  }

  lemma BecameViews(s: Pos, a: Address, reward: Address, s': Pos, epoch: nat)
    requires Became(s, a, reward, s') && s.epoch <= epoch
    ensures Stake(s', a, epoch) == 0 && Power(s', a, epoch) == 0
    ensures forall v :: v != a ==>
      Stake(s', v, epoch) == Stake(s, v, epoch) && Power(s', v, epoch) == Power(s, v, epoch)
    ensures forall v :: v != a ==> Joined(s', v, epoch) == Joined(s, v, epoch)
    ensures Joined(s', a, epoch) <==> epoch >= s.epoch + s.params.pipelineLen
    ensures SetAt(s', epoch) ==
      if epoch < s.epoch + s.params.pipelineLen then SetAt(s, epoch)
        else AddNew(SetAt(s, epoch), a, s.params.maxValidatorSlots)
  {
    hide AddAt, Get, InitAt, UpdateFrom, StakesFit, SetsOk, PowersFollow, TotalPowerOk, StateLine, SetsTrack, AddNew;
    var c, pipeline, off := s.epoch, s.params.pipelineLen, s.params.unbondingLen;
    var f := NewcomerAdder(a, s.params.maxValidatorSlots);
    InitAtInt(0, c, pipeline, epoch);
    NewStateLine(c, pipeline);
    UpdateFromUniform(f, s.sets, c, pipeline, off, epoch);
    SetsPresent(s, epoch);
  }

  lemma BecameMembers(s: Pos, a: Address, reward: Address, s': Pos, epoch: nat)
    requires Became(s, a, reward, s') && s.epoch <= epoch
    ensures Members(s', epoch) == Members(s, epoch) + if epoch < s.epoch + s.params.pipelineLen then {}
      else {Weighted(0, a)}
    ensures forall w :: w in Members(s, epoch) ==> w.address != a
  {
    hide Core, BecomeValidator, Stake, Joined, VotingPower;
    assert s'.params == s.params && s'.states.Keys == s.states.Keys + {a} by {
      BecameKeys(s, a, reward, s');
    }
    BecameViews(s, a, reward, s', epoch);
    NoPower(s.params);
    forall v | v in s.states
      ensures Joined(s', v, epoch) == Joined(s, v, epoch) && Weight(s', v, epoch) == Weight(s, v, epoch)
    {
    }
    assert Weight(s', a, epoch) == 0;
  }

  lemma BecameKeys(s: Pos, a: Address, reward: Address, s': Pos)
    requires Became(s, a, reward, s')
    ensures s'.params == s.params && s'.epoch == s.epoch && s'.totalPower == s.totalPower
    ensures s'.states.Keys == s.states.Keys + {a} && s'.totals.Keys == s.totals.Keys + {a}
    ensures s'.powers.Keys == s.powers.Keys + {a}
    ensures a !in s.powers && a !in s.totals
  {
    hide AddAt, InitAt, UpdateFrom, SetsTrack, StakesFit, SetsOk, PowersFollow, TotalPowerOk, StateLine;
  }

  lemma NoPower(params: PosParams)
    ensures VotingPower(params, 0) == 0
  {
  }

  lemma BecameSetOk(s: Pos, a: Address, reward: Address, s': Pos, epoch: nat)
    requires Became(s, a, reward, s') && s.epoch <= epoch
    ensures SetOk(s', epoch)
  {
    hide BecomeValidator, Windows, SetsTrack, StakesFit, PowersFollow, TotalPowerOk, WellFormed, Members, SetAt,
      AddNew;
    assert SetOk(s, epoch);
    BecameKeys(s, a, reward, s');
    BecameViews(s, a, reward, s', epoch);
    BecameMembers(s, a, reward, s', epoch);
    if epoch >= s.epoch + s.params.pipelineLen {
      AddNewWellFormed(SetAt(s, epoch), a, s.params.maxValidatorSlots);
    }
  }

  lemma BecamePowers(s: Pos, a: Address, reward: Address, s': Pos, epoch: nat)
    requires Became(s, a, reward, s') && s.epoch <= epoch
    ensures SumOf(PowersAt(s', epoch)) == SumOf(PowersAt(s, epoch))
  {
    hide Core, BecomeValidator, Power, SumOf;
    BecameKeys(s, a, reward, s');
    BecameViews(s, a, reward, s', epoch);
    assert PowersAt(s', epoch) == PowersAt(s, epoch)[a := 0];
    SumUpdate(PowersAt(s, epoch), a, 0);
  }

  lemma BecomeValidatorCore(s: Pos, a: Address, reward: Address, s': Pos)
    requires Core(s) && BecomeValidator(s, a, reward) == Ok(s')
    ensures Core(s')
  {
    hide VotingPower, Windows, SetsTrack, SetOk, SumOf, Stake, Power, At, PowersAt;
    assert Became(s, a, reward, s');
    BecameKeys(s, a, reward, s');
    BecameWindows(s, a, reward, s');
    BecameTrack(s, a, reward, s');
    NoPower(s.params);
    forall e | s'.epoch <= e ensures SetOk(s', e) && At(s'.totalPower, e) == SumOf(PowersAt(s', e)) {
      BecameSetOk(s, a, reward, s', e);
      BecamePowers(s, a, reward, s', e);
    }
    forall v, e | v in s'.totals && s'.epoch <= e ensures FitsU64(Stake(s', v, e)) {
      BecameViews(s, a, reward, s', e);
    }
    forall v, e | v in s'.powers && s'.epoch <= e ensures Power(s', v, e) == Weight(s', v, e) {
      BecameViews(s, a, reward, s', e);
    }
  }

  // ---------- genesis ----------

  /** Genesis tokens that the parameters and the token type can hold. */
  ghost predicate GenesisOk(params: PosParams, tokens: map<Address, nat>) {
    && ParamsOk(params)
    && (forall v :: v in tokens ==> 0 < tokens[v] <= U64_MAX)
    && 0 <= SumOf(tokens) <= U64_MAX
  }

  lemma GenesisViews(params: PosParams, tokens: map<Address, nat>, g: nat, epoch: nat)
    requires GenesisOk(params, tokens) && g <= epoch
    ensures var s := Genesis(params, tokens, g);
      && (forall v :: v in tokens ==>
        Stake(s, v, epoch) == tokens[v] && Power(s, v, epoch) == VotingPower(params, tokens[v]))
      && (forall v :: v in tokens ==> Joined(s, v, epoch))
      && At(s.totalPower, epoch) == SumOf(GenesisPowers(params, tokens))
      && SetAt(s, epoch) == Trim(ValidatorSet(GenesisWeights(params, tokens), {}), params.maxValidatorSlots)
  {
    hide InitAt, Get, VotingPower, SumOf, Trim;
    var s := Genesis(params, tokens, g);
    forall v | v in tokens
      ensures Stake(s, v, epoch) == tokens[v] && Power(s, v, epoch) == VotingPower(params, tokens[v])
      ensures Joined(s, v, epoch)
    {
      InitAtInt(tokens[v], g, 0, epoch);
      InitAtInt(VotingPower(params, tokens[v]), g, 0, epoch);
      InitAtGet(Later, Candidate, g, 0, epoch);
    }
    InitAtInt(SumOf(GenesisPowers(params, tokens)), g, 0, epoch);
    InitAtGet(Later, Trim(ValidatorSet(GenesisWeights(params, tokens), {}), params.maxValidatorSlots), g, 0, epoch);
  }

  lemma GenesisSetOk(params: PosParams, tokens: map<Address, nat>, g: nat, epoch: nat)
    requires GenesisOk(params, tokens) && g <= epoch
    ensures SetOk(Genesis(params, tokens, g), epoch)
  {
    hide VotingPower, Stake, Joined, SetAt, SumOf, WellFormed, Trim, Power;
    var s := Genesis(params, tokens, g);
    var all := ValidatorSet(GenesisWeights(params, tokens), {});
    GenesisViews(params, tokens, g, epoch);
    assert s.states.Keys == tokens.Keys && s.params == params;
    assert Members(s, epoch) == GenesisWeights(params, tokens);
    assert all.All() == GenesisWeights(params, tokens);
    TrimWellFormed(all, params.maxValidatorSlots);
  }

  lemma GenesisWindows(params: PosParams, tokens: map<Address, nat>, g: nat)
    requires GenesisOk(params, tokens)
    ensures Windows(Genesis(params, tokens, g)) && SetsTrack(Genesis(params, tokens, g))
  {
    hide InitAt, Get, VotingPower, SumOf, Trim, DeltaAt;
    var s := Genesis(params, tokens, g);
    InitAtShape(Trim(ValidatorSet(GenesisWeights(params, tokens), {}), params.maxValidatorSlots), g, 0);
    InitAtShape(SumOf(GenesisPowers(params, tokens)), g, 0);
    InitAtShape(Candidate, g, 0);
    forall v | v in tokens
      ensures Fits(s.totals[v], 0) && s.totals[v].lastUpdate == g && Fits(s.powers[v], 0) && s.powers[v].lastUpdate == g
      ensures StateLine(s.states[v], params.pipelineLen) && s.states[v].lastUpdate == g
      ensures forall x :: x > g ==> DeltaAt(s.totals[v], x) == None
    {
      InitAtShape(tokens[v] as int, g, 0);
      InitAtShape(VotingPower(params, tokens[v]) as int, g, 0);
      forall e | g <= e ensures Get(Later, s.states[v], e) == Some(Candidate) {
        InitAtGet(Later, Candidate, g, 0, e);
      }
    }
  }

  lemma GenesisCore(params: PosParams, tokens: map<Address, nat>, g: nat)
    requires GenesisOk(params, tokens)
    ensures Core(Genesis(params, tokens, g))
  {
    hide InitAt, Stake, Power, VotingPower, SumOf, SetOk, Windows, SetsTrack, At, Trim;
    var s := Genesis(params, tokens, g);
    GenesisWindows(params, tokens, g);
    forall e | g <= e ensures SetOk(s, e) && At(s.totalPower, e) == SumOf(PowersAt(s, e)) {
      GenesisSetOk(params, tokens, g, e);
      GenesisViews(params, tokens, g, e);
      assert PowersAt(s, e) == GenesisPowers(params, tokens);
    }
    forall v, e | v in s.totals && g <= e ensures FitsU64(Stake(s, v, e)) {
      GenesisViews(params, tokens, g, e);
    }
    forall v, e | v in s.powers && g <= e ensures Power(s, v, e) == Weight(s, v, e) {
      GenesisViews(params, tokens, g, e);
    }
  }
}

/**
 The loops of genesis: the validator set and the totals accumulated over the
 genesis validators, and the data of each of them.
 */
module GenesisStore {
  import opened Options
  import opened Timelines
  import opened Sums
  import opened Params
  import opened ValidatorSets
  import opened Ledger
  import opened EpochedContainers

  datatype GenesisValidator = GenesisValidator(address: Address, tokens: nat)

  /** The validators' tokens by their address. */
  function TokensOf(validators: seq<GenesisValidator>): map<Address, nat> {
    if validators == [] then map[]
    else
      var last := validators[|validators| - 1];
      TokensOf(validators[..|validators| - 1])[last.address := last.tokens]
  }

  ghost predicate Distinct(validators: seq<GenesisValidator>) {
    forall i, j :: 0 <= i < j < |validators| ==> validators[i].address != validators[j].address
  }

  lemma {:induction false} NotYet(validators: seq<GenesisValidator>, i: nat, n: nat)
    requires Distinct(validators) && i <= n < |validators|
    ensures validators[n].address !in TokensOf(validators[..i])
  {
    if i > 0 {
      NotYet(validators, i - 1, n);
      assert validators[..i][..i - 1] == validators[..i - 1];
    }
  }

  lemma TokensStep(validators: seq<GenesisValidator>, i: nat)
    requires i < |validators|
    ensures TokensOf(validators[..i + 1]) == TokensOf(validators[..i])[validators[i].address := validators[i].tokens]
  {
    assert validators[..i + 1][..i] == validators[..i];
  }

  lemma WeightIn(params: PosParams, tokens: map<Address, nat>)
    ensures forall w :: w in GenesisWeights(params, tokens) <==>
      w.address in tokens && w.power == VotingPower(params, tokens[w.address])
  {
    hide VotingPower;
    forall w: Weighted | w.address in tokens && w.power == VotingPower(params, tokens[w.address])
      ensures w in GenesisWeights(params, tokens)
    {
      assert w == Weighted(VotingPower(params, tokens[w.address]), w.address);
    }
  }

  lemma PowersStep(params: PosParams, tokens: map<Address, nat>, v: Address, amount: nat)
    requires v !in tokens
    ensures SumOf(GenesisPowers(params, tokens[v := amount])) ==
      SumOf(GenesisPowers(params, tokens)) + VotingPower(params, amount)
    ensures SumOf(tokens[v := amount]) == SumOf(tokens) + amount
    ensures GenesisWeights(params, tokens[v := amount]) ==
      GenesisWeights(params, tokens) + {Weighted(VotingPower(params, amount), v)}
  {
    hide SumOf, VotingPower;
    SumUpdate(tokens, v, amount);
    SumUpdate(GenesisPowers(params, tokens), v, VotingPower(params, amount));
    WeightIn(params, tokens);
    WeightIn(params, tokens[v := amount]);
    assert GenesisPowers(params, tokens)[v := VotingPower(params, amount)] ==
      GenesisPowers(params, tokens[v := amount]);
  }

  /** The voting power of every one of them can be represented. */
  ghost predicate PowersFit(params: PosParams, validators: seq<GenesisValidator>) {
    forall i :: 0 <= i < |validators| ==> TryVotingPowerDelta(params, validators[i].tokens).Some?
  }

  ghost function WeightsOf(params: PosParams, validators: seq<GenesisValidator>): set<Weighted> {
    set v | v in validators :: Weighted(VotingPower(params, v.tokens), v.address)
  }

  function PowerSum(params: PosParams, validators: seq<GenesisValidator>): nat {
    if validators == [] then 0
    else PowerSum(params, validators[..|validators| - 1]) + VotingPower(params, validators[|validators| - 1].tokens)
  }

  function TokenSum(validators: seq<GenesisValidator>): nat {
    if validators == [] then 0 else TokenSum(validators[..|validators| - 1]) + validators[|validators| - 1].tokens
  }

  lemma SumsStep(params: PosParams, validators: seq<GenesisValidator>, i: nat)
    requires i < |validators|
    ensures WeightsOf(params, validators[..i + 1]) ==
      WeightsOf(params, validators[..i]) + {Weighted(VotingPower(params, validators[i].tokens), validators[i].address)}
    ensures PowerSum(params, validators[..i + 1]) ==
      PowerSum(params, validators[..i]) + VotingPower(params, validators[i].tokens)
    ensures TokenSum(validators[..i + 1]) == TokenSum(validators[..i]) + validators[i].tokens
  {
    hide VotingPower;
    assert validators[..i + 1] == validators[..i] + [validators[i]];
    assert validators[..i + 1][..i] == validators[..i];
  }

  /** With one entry per address the sums are those of the tokens by address. */
  lemma {:induction false} SumsOfDistinct(params: PosParams, validators: seq<GenesisValidator>, i: nat)
    requires Distinct(validators) && i <= |validators|
    ensures WeightsOf(params, validators[..i]) == GenesisWeights(params, TokensOf(validators[..i]))
    ensures PowerSum(params, validators[..i]) == SumOf(GenesisPowers(params, TokensOf(validators[..i])))
    ensures TokenSum(validators[..i]) == SumOf(TokensOf(validators[..i]))
  {
    hide SumOf, VotingPower, TokensOf, WeightsOf, PowerSum, TokenSum;
    NothingYet(params);
    if i > 0 {
      SumsOfDistinct(params, validators, i - 1);
      SumsStep(params, validators, i - 1);
      NotYet(validators, i - 1, i - 1);
      TokensStep(validators, i - 1);
      PowersStep(params, TokensOf(validators[..i - 1]), validators[i - 1].address, validators[i - 1].tokens);
    }
  }

  /** The genesis data written over a state. */
  ghost function GenesisOver(s: Pos, params: PosParams, validators: seq<GenesisValidator>, epoch: nat): Pos {
    var tokens := TokensOf(validators);
    Pos(params, epoch,
      s.states + GenesisStates(tokens, epoch),
      s.totals + GenesisTotals(tokens, epoch),
      s.powers + GenesisPowerLines(params, tokens, epoch),
      s.bonds + GenesisBonds(tokens, epoch),
      s.unbonds,
      InitAt(Trim(ValidatorSet(WeightsOf(params, validators), {}), params.maxValidatorSlots), epoch, 0),
      InitAt(PowerSum(params, validators), epoch, 0),
      s.slashes,
      s.balance + TokenSum(validators))
  }

  /** Nothing is stored yet. */
  ghost predicate Fresh(s: Pos) {
    && s.states == map[] && s.totals == map[] && s.powers == map[]
    && s.bonds == map[] && s.unbonds == map[] && s.slashes == map[] && s.balance == 0
  }

  lemma Unmerged<K, V>(m: map<K, V>)
    ensures map[] + m == m && m + map[] == m
  {
  }

  lemma MergeInsert<K, V>(a: map<K, V>, b: map<K, V>, k: K, v: V)
    ensures a + b[k := v] == (a + b)[k := v]
  {
  }

  /** Over nothing, with one entry per address, this is the state at genesis. */
  lemma GenesisOverNothing(s: Pos, params: PosParams, validators: seq<GenesisValidator>, epoch: nat)
    requires Fresh(s) && Distinct(validators)
    ensures 0 <= SumOf(TokensOf(validators))
    ensures GenesisOver(s, params, validators, epoch) == Genesis(params, TokensOf(validators), epoch)
  {
    hide InitAt, VotingPower, TokensOf, SumOf, Trim, GenesisStates, GenesisTotals, GenesisPowerLines, GenesisBonds,
      WeightsOf, PowerSum, TokenSum, GenesisWeights, GenesisPowers;
    SumsOfDistinct(params, validators, |validators|);
    assert validators[..|validators|] == validators;
    var tokens := TokensOf(validators);
    Unmerged(GenesisStates(tokens, epoch));
    Unmerged(GenesisTotals(tokens, epoch));
    Unmerged(GenesisPowerLines(params, tokens, epoch));
    Unmerged(GenesisBonds(tokens, epoch));
  }

  /** The active set before it is trimmed, the total voting power and the bonded
      balance. */
  method Accumulate(params: PosParams, validators: seq<GenesisValidator>)
    returns (r: Outcome<set<Weighted>>, totalPower: int, balance: nat)
    ensures r.Ok? <==> PowersFit(params, validators)
    ensures r.IsFailure() ==> r == Err(VotingPowerOverflow)
    ensures r.Ok? ==>
      r.value == WeightsOf(params, validators) && totalPower == PowerSum(params, validators)
        && balance == TokenSum(validators)
  {
    hide VotingPower, TryVotingPowerDelta, WeightsOf, PowerSum, TokenSum;
    var active: set<Weighted> := {};
    totalPower, balance := 0, 0;
    NothingYet(params);
    for i := 0 to |validators|
      invariant PowersFit(params, validators[..i])
      invariant active == WeightsOf(params, validators[..i])
      invariant totalPower == PowerSum(params, validators[..i])
      invariant balance == TokenSum(validators[..i])
    {
      var v := validators[i];
      var delta := TryVotingPowerDelta(params, v.tokens);
      if delta.None? {
        return Err(VotingPowerOverflow), totalPower, balance;
      }
      SumsStep(params, validators, i);
      DeltaIsPower(params, v.tokens);
      balance := balance + v.tokens;
      totalPower := totalPower + delta.value;
      active := active + {Weighted(VotingPower(params, v.tokens), v.address)};
    }
    assert validators[..|validators|] == validators;
    r := Ok(active);
  }

  lemma NothingYet(params: PosParams)
    ensures TokensOf([]) == map[]
    ensures GenesisWeights(params, TokensOf([])) == {}
    ensures SumOf(GenesisPowers(params, TokensOf([]))) == 0 && SumOf(TokensOf([])) == 0
    ensures WeightsOf(params, []) == {} && PowerSum(params, []) == 0 && TokenSum([]) == 0
  {
  }

  lemma NoLines(params: PosParams, epoch: nat)
    ensures GenesisStates(map[], epoch) == map[] && GenesisTotals(map[], epoch) == map[]
    ensures GenesisPowerLines(params, map[], epoch) == map[] && GenesisBonds(map[], epoch) == map[]
  {
  }

  lemma LinesStep(params: PosParams, tokens: map<Address, nat>, v: Address, amount: nat, epoch: nat)
    ensures GenesisStates(tokens[v := amount], epoch) == GenesisStates(tokens, epoch)[v := InitAt(Candidate, epoch, 0)]
    ensures GenesisTotals(tokens[v := amount], epoch) == GenesisTotals(tokens, epoch)[v := InitAt(amount, epoch, 0)]
    ensures GenesisPowerLines(params, tokens[v := amount], epoch) ==
      GenesisPowerLines(params, tokens, epoch)[v := InitAt(VotingPower(params, amount), epoch, 0)]
  {
    hide InitAt, VotingPower;
  }

  lemma BondsStep(tokens: map<Address, nat>, v: Address, amount: nat, epoch: nat)
    ensures GenesisBonds(tokens[v := amount], epoch) ==
      GenesisBonds(tokens, epoch)[BondId(v, v) := SelfBond(amount, epoch)]
  {
    hide SelfBond;
  }

  /** The data of one more validator, over those of a state. */
  lemma StepOver(s: Pos, params: PosParams, tokens: map<Address, nat>, v: Address, amount: nat)
    ensures var e, more := s.epoch, tokens[v := amount];
      && s.states + GenesisStates(more, e) == (s.states + GenesisStates(tokens, e))[v := InitAt(Candidate, e, 0)]
      && s.totals + GenesisTotals(more, e) == (s.totals + GenesisTotals(tokens, e))[v := InitAt<int>(amount, e, 0)]
      && s.powers + GenesisPowerLines(params, more, e) ==
        (s.powers + GenesisPowerLines(params, tokens, e))[v := InitAt<int>(VotingPower(params, amount), e, 0)]
      && s.bonds + GenesisBonds(more, e) == (s.bonds + GenesisBonds(tokens, e))[BondId(v, v) := SelfBond(amount, e)]
  {
    hide InitAt, VotingPower, SelfBond, GenesisStates, GenesisTotals, GenesisPowerLines, GenesisBonds;
    var e := s.epoch;
    LinesStep(params, tokens, v, amount, e);
    BondsStep(tokens, v, amount, e);
    MergeInsert(s.states, GenesisStates(tokens, e), v, InitAt(Candidate, e, 0));
    MergeInsert(s.totals, GenesisTotals(tokens, e), v, InitAt<int>(amount, e, 0));
    MergeInsert(s.powers, GenesisPowerLines(params, tokens, e), v, InitAt<int>(VotingPower(params, amount), e, 0));
    MergeInsert(s.bonds, GenesisBonds(tokens, e), BondId(v, v), SelfBond(amount, e));
  }

  lemma DeltaIsPower(params: PosParams, tokens: nat)
    requires TryVotingPowerDelta(params, tokens).Some?
    ensures TryVotingPowerDelta(params, tokens).value == VotingPower(params, tokens)
  {
  }

  /** Pops the weakest active validators until the active ones fit in the slots. */
  method TrimToSlots(active: set<Weighted>, slots: nat) returns (vs: ValidatorSet)
    ensures vs == Trim(ValidatorSet(active, {}), slots)
  {
    vs := ValidatorSet(active, {});
    while |vs.active| > slots
      invariant Trim(vs, slots) == Trim(ValidatorSet(active, {}), slots)
      decreases |vs.active|
    {
      var first := First(vs.active);
      vs := ValidatorSet(vs.active - {first}, vs.inactive + {first});
    }
  }
}

/**
 Without slashes, the stake of a validator at every epoch is exactly the tokens
 bonded to it that have started by then, plus those unbonded that are still at
 stake; and the account of the system holds exactly all bonded and unbonded
 tokens.
 */
module Solvency {
  import opened Options
  import opened Timelines
  import opened Sums
  import opened Params
  import opened ValidatorSets
  import opened Ledger
  import opened StakeViews
  import opened CoreInvariant
  import opened DeltaMaps
  import opened BondInvariant
  import opened CoreSteps

  /** Bonds that have started by an epoch. */
  function StartedBy(epoch: nat): nat -> bool {
    (k: nat) => k <= epoch
  }

  /** Unbonds that are at stake in an epoch. */
  function AtStake(epoch: nat): ((nat, nat)) -> bool {
    (k: (nat, nat)) => k.0 <= epoch <= k.1
  }

  ghost function Staked(s: Pos, id: BondId, epoch: nat): int {
    SumOf(Keep(BondsOf(s, id), StartedBy(epoch))) + SumOf(Keep(UnbondsOf(s, id), AtStake(epoch)))
  }

  ghost function Held(s: Pos, id: BondId): int {
    SumOf(BondsOf(s, id)) + SumOf(UnbondsOf(s, id))
  }

  ghost function Ids(s: Pos): set<BondId> {
    s.bonds.Keys + s.unbonds.Keys
  }

  /** The tokens at stake for a validator, by bond. */
  ghost function Backing(s: Pos, v: Address, epoch: nat): map<BondId, int> {
    map id | id in Ids(s) && id.validator == v :: Staked(s, id, epoch)
  }

  /** The tokens held for every bond. */
  ghost function Holdings(s: Pos): map<BondId, int> {
    map id | id in Ids(s) :: Held(s, id)
  }

  ghost predicate StakesBacked(s: Pos) {
    forall v, e :: v in s.totals && s.epoch <= e ==> Stake(s, v, e) == SumOf(Backing(s, v, e))
  }

  ghost predicate Solvent(s: Pos) {
    s.slashes == map[] && StakesBacked(s) && s.balance == SumOf(Holdings(s))
  }

  // ---------- changing one bond ----------

  lemma SumDiff<K>(m: map<K, int>, n: map<K, int>, k: K)
    requires n - {k} == m - {k}
    ensures SumOf(n) - SumOf(m) == ValueAt(n, k) - ValueAt(m, k)
  {
    SumRemove(m, k);
    SumRemove(n, k);
  }

  lemma NothingStaked(s: Pos, id: BondId, epoch: nat)
    requires id !in Ids(s)
    ensures Staked(s, id, epoch) == 0 && Held(s, id) == 0
  {
    hide Keep;
    KeepNone<nat>(map[], StartedBy(epoch));
    KeepNone<(nat, nat)>(map[], AtStake(epoch));
    SumOfNothing<nat>();
    SumOfNothing<(nat, nat)>();
  }

  /** Only one bond and its unbond differ between two states. */
  ghost predicate OnlyBond(s: Pos, s': Pos, id: BondId) {
    && s'.params == s.params
    && s'.bonds - {id} == s.bonds - {id}
    && s'.unbonds - {id} == s.unbonds - {id}
  }

  lemma OnlyBondOthers(s: Pos, s': Pos, id: BondId, j: BondId, epoch: nat)
    requires OnlyBond(s, s', id) && j != id
    ensures (j in Ids(s') <==> j in Ids(s)) && Staked(s', j, epoch) == Staked(s, j, epoch) && Held(s', j) == Held(s, j)
  {
    hide AllOf, SumOf, Keep;
    RestSame(s.bonds, s'.bonds, id);
    RestSame(s.unbonds, s'.unbonds, id);
  }

  lemma BackingDiff(s: Pos, s': Pos, id: BondId, v: Address, epoch: nat)
    requires OnlyBond(s, s', id)
    ensures SumOf(Backing(s', v, epoch)) - SumOf(Backing(s, v, epoch)) ==
      if v == id.validator then Staked(s', id, epoch) - Staked(s, id, epoch) else 0
  {
    hide Staked, SumOf, Ids, OnlyBond;
    var m, n := Backing(s, v, epoch), Backing(s', v, epoch);
    forall j | j != id ensures (j in n <==> j in m) && (j in m ==> n[j] == m[j]) {
      OnlyBondOthers(s, s', id, j, epoch);
    }
    assert n - {id} == m - {id};
    SumDiff(m, n, id);
    if id !in Ids(s) { NothingStaked(s, id, epoch); }
    if id !in Ids(s') { NothingStaked(s', id, epoch); }
  }

  lemma HoldingsDiff(s: Pos, s': Pos, id: BondId)
    requires OnlyBond(s, s', id)
    ensures SumOf(Holdings(s')) - SumOf(Holdings(s)) == Held(s', id) - Held(s, id)
  {
    hide Held, SumOf, Ids, OnlyBond;
    var m, n := Holdings(s), Holdings(s');
    forall j | j != id ensures (j in n <==> j in m) && (j in m ==> n[j] == m[j]) {
      OnlyBondOthers(s, s', id, j, 0);
    }
    assert n - {id} == m - {id};
    SumDiff(m, n, id);
    if id !in Ids(s) { NothingStaked(s, id, 0); }
    if id !in Ids(s') { NothingStaked(s', id, 0); }
  }

  // ---------- bonding ----------

  lemma SumSingle<K>(k: K, amount: nat)
    ensures SumOf(map[k := amount]) == amount
  {
    SumSplit(map[k := amount], k);
    assert map[k := amount] - {k} == map[];
    SumOfNothing<K>();
  }

  lemma BondStaked(s: Pos, source: Option<Address>, v: Address, amount: nat, s': Pos, epoch: nat)
    requires Sound(s) && BondTokens(s, source, v, amount) == Ok(s')
    ensures var id := IdOf(source, v);
      && Staked(s', id, epoch) - Staked(s, id, epoch) == (if epoch < s.epoch + s.params.pipelineLen then 0 else amount)
      && Held(s', id) - Held(s, id) == amount
  {
    hide BondTokens, Windows, BondsShaped, AddAmounts, SumOf, Keep;
    var id := IdOf(source, v);
    var value := BondDelta(s, amount);
    BondEffect(s, source, v, amount, s');
    SumKeepAdd(BondsOf(s, id), value, StartedBy(epoch));
    SumAddAmounts(BondsOf(s, id), value);
    SumSingle<nat>(s.epoch + s.params.pipelineLen, amount);
    SumOfNothing<nat>();
    if epoch < s.epoch + s.params.pipelineLen {
      KeepNone(value, StartedBy(epoch));
    } else {
      KeepAll(value, StartedBy(epoch));
    }
    UnbondsSame(s, s', id);
  }

  lemma UnbondsSame(s: Pos, s': Pos, id: BondId)
    requires s'.unbonds == s.unbonds && s'.params == s.params
    ensures UnbondsOf(s', id) == UnbondsOf(s, id)
  {
  }

  lemma BondSolvent(s: Pos, source: Option<Address>, v: Address, amount: nat, s': Pos)
    requires Core(s) && BondsShaped(s) && Solvent(s) && BondTokens(s, source, v, amount) == Ok(s')
    ensures Solvent(s')
  {
    hide BondTokens, SetsTrack, StakesFit, SetsOk, PowersFollow, TotalPowerOk, BondsShaped, ChangeStake, Backing,
      Holdings, SumOf, Stake, Staked, Held, StateLine, Find;
    var id := IdOf(source, v);
    var t := BondParts(s, source, v, amount, s');
    BondEffect(s, source, v, amount, s');
    ChangeStakes(s, v, amount, s.params.pipelineLen, t);
    assert OnlyBond(s, s', id);
    HoldingsDiff(s, s', id);
    BondStaked(s, source, v, amount, s', 0);
    forall w, e | w in s'.totals && s'.epoch <= e ensures Stake(s', w, e) == SumOf(Backing(s', w, e)) {
      BackingDiff(s, s', id, w, e);
      BondStaked(s, source, v, amount, s', e);
      SameStake(t, s', w, e);
      ChangeFrame(s, v, amount, s.params.pipelineLen, t);
    }
  }

  lemma SameStake(t: Pos, s': Pos, w: Address, epoch: nat)
    requires s'.totals == t.totals
    ensures Stake(s', w, epoch) == Stake(t, w, epoch)
  {
  }

  // ---------- unbonding ----------

  lemma {:induction false} WorthUnslashed(taken: seq<Bond>)
    ensures WorthInAll(taken, []) == SumOf(TakenInAll(taken))
    decreases |taken|
  {
    if taken == [] {
      SumOfNothing<nat>();
    } else {
      var last := |taken| - 1;
      WorthUnslashed(taken[..last]);
      SumAddAmounts(TakenInAll(taken[..last]), taken[last]);
      assert Worths(taken[last], []) == taken[last];
    }
  }

  /** Tokens taken from a bond stay at stake until the unbond ends. */
  lemma EndingAtStake(taken: Bond, end: nat, epoch: nat)
    ensures SumOf(Keep(Ending(taken, end), AtStake(epoch))) == if epoch <= end
      then SumOf(Keep(taken, StartedBy(epoch))) else 0
  {
    if epoch <= end {
      assert Keep(Ending(taken, end), AtStake(epoch)) == Ending(Keep(taken, StartedBy(epoch)), end);
      SumEnding(Keep(taken, StartedBy(epoch)), end);
    } else {
      KeepNone(Ending(taken, end), AtStake(epoch));
      SumOfNothing<(nat, nat)>();
    }
  }

  lemma UnbondStaked(s: Pos, source: Option<Address>, v: Address, amount: nat, taken: seq<Bond>, s': Pos, epoch: nat)
    requires Sound(s) && UnbondTokens(s, source, v, amount, taken) == Ok(s')
    requires Takeable(s, IdOf(source, v), amount, taken)
    ensures var id := IdOf(source, v);
      && Staked(s', id, epoch) - Staked(s, id, epoch) ==
        (if epoch < s.epoch + s.params.unbondingLen then 0 else 0 - amount)
      && Held(s', id) == Held(s, id)
  {
    hide UnbondTokens, Windows, BondsShaped, AddAmounts, SumOf, Keep, Takes, Advance, TakenInAll, Ending;
    var id := IdOf(source, v);
    var all, end := TakenInAll(taken), s.epoch + s.params.unbondingLen - 1;
    UnbondEffect(s, source, v, amount, taken, s');
    SumKeepAdd(BondsOf(s', id), all, StartedBy(epoch));
    SumKeepAdd(UnbondsOf(s, id), UnbondDelta(s, taken), AtStake(epoch));
    SumAddAmounts(BondsOf(s', id), all);
    SumAddAmounts(UnbondsOf(s, id), UnbondDelta(s, taken));
    SumEnding(all, end);
    EndingAtStake(all, end, epoch);
    if epoch > end {
      TakenStarts(s, id, amount, taken);
      KeepAll(all, StartedBy(epoch));
    }
  }

  lemma UnbondSolvent(s: Pos, source: Option<Address>, v: Address, amount: nat, taken: seq<Bond>, s': Pos)
    requires Core(s) && BondsShaped(s) && Solvent(s)
    requires UnbondTokens(s, source, v, amount, taken) == Ok(s') && Takeable(s, IdOf(source, v), amount, taken)
    ensures Solvent(s')
  {
    hide UnbondTokens, SetsTrack, StakesFit, SetsOk, PowersFollow, TotalPowerOk, BondsShaped, ChangeStake, Backing,
      Holdings, SumOf, Stake, Staked, Held, StateLine, Find, TakenInAll, WorthInAll, UnbondDelta, UnbondAfter,
      BondLeft, AddAmounts, BondsOf, UnbondsOf, DueBy;
    var id, off := IdOf(source, v), s.params.unbondingLen;
    var t := UnbondParts(s, source, v, amount, taken, s');
    UnbondEffect(s, source, v, amount, taken, s');
    WorthUnslashed(taken);
    var change := 0 - WorthInAll(taken, SlashesOf(s, v)) as int;
    ChangeStakes(s, v, change, off, t);
    ChangeFrame(s, v, change, off, t);
    assert OnlyBond(s, s', id);
    HoldingsDiff(s, s', id);
    UnbondStaked(s, source, v, amount, taken, s', 0);
    forall w, e | w in s'.totals && s'.epoch <= e ensures Stake(s', w, e) == SumOf(Backing(s', w, e)) {
      BackingDiff(s, s', id, w, e);
      UnbondStaked(s, source, v, amount, taken, s', e);
      SameStake(t, s', w, e);
    }
  }

  // ---------- withdrawing ----------

  lemma WithdrawableUnslashed(unbond: Unbond)
    ensures Withdrawable(unbond, []) == SumOf(unbond)
  {
    assert DueWorths(unbond, []) == unbond;
  }

  /** What is paid out and what is slashed make up the tokens that were due. */
  lemma WithdrawnAndSlashed(unbond: Unbond, slashes: seq<Slash>)
    ensures Withdrawable(unbond, slashes) + SlashedFrom(unbond, slashes) == SumOf(unbond)
  {
    hide SumOf, AfterSlashes, SlashedOff, RatesWithin;
    var worth, off := DueWorths(unbond, slashes), DueSlashes(unbond, slashes);
    forall k ensures ValueAt(unbond, k) == ValueAt(worth, k) + ValueAt(off, k) {
      if k in unbond {
        SlashedOffSplits(RatesWithin(slashes, k.0, k.1), unbond[k]);
      }
    }
    SumPointwise(worth, off, unbond);
  }

  lemma WithdrawStaked(s: Pos, source: Option<Address>, v: Address, s': Pos, epoch: nat)
    requires Sound(s) && WithdrawTokens(s, source, v) == Ok(s')
    ensures var id := IdOf(source, v);
      && (s.epoch <= epoch ==> Staked(s', id, epoch) == Staked(s, id, epoch))
      && Held(s, id) - Held(s', id) == SumOf(DueBy(s, id, s.epoch))
  {
    hide WithdrawTokens, Windows, AddAmounts, SumOf, Keep, Get, Shaped;
    var id := IdOf(source, v);
    var t, r := WithdrawParts(s, source, v, s');
    WithdrawEffect(s, source, v, s');
    var due := DueBy(s, id, s.epoch);
    SumKeepAdd(due, UnbondsOf(s', id), AtStake(epoch));
    SumAddAmounts(due, UnbondsOf(s', id));
    SumOfNothing<(nat, nat)>();
    ShapedGet(t, EndRank, s.epoch);
    if s.epoch <= epoch {
      KeepNone(due, AtStake(epoch));
    }
    assert BondsOf(s', id) == BondsOf(s, id);
  }

  lemma WithdrawSolvent(s: Pos, source: Option<Address>, v: Address, s': Pos)
    requires Core(s) && BondsShaped(s) && Solvent(s) && WithdrawTokens(s, source, v) == Ok(s')
    ensures Solvent(s')
  {
    hide WithdrawTokens, SetsTrack, StakesFit, SetsOk, PowersFollow, TotalPowerOk, BondsShaped, Backing, Holdings,
      SumOf, Stake, Staked, Held, StateLine, Find, AddAmounts, BondsOf, UnbondsOf, DueBy, Withdrawable;
    var id := IdOf(source, v);
    WithdrawEffect(s, source, v, s');
    WithdrawableUnslashed(DueBy(s, id, s.epoch));
    assert OnlyBond(s, s', id);
    HoldingsDiff(s, s', id);
    WithdrawStaked(s, source, v, s', 0);
    forall w, e | w in s'.totals && s'.epoch <= e ensures Stake(s', w, e) == SumOf(Backing(s', w, e)) {
      BackingDiff(s, s', id, w, e);
      WithdrawStaked(s, source, v, s', e);
      SameStake(s, s', w, e);
    }
  }

  // ---------- the other transitions ----------

  /** Two states with the same bonds and unbonds hold and stake the same tokens. */
  lemma SameBooks(s: Pos, s': Pos)
    requires s'.params == s.params && s'.bonds == s.bonds && s'.unbonds == s.unbonds
    ensures Holdings(s') == Holdings(s) && forall v, e :: Backing(s', v, e) == Backing(s, v, e)
  {
    hide Staked, Held;
    forall id, e ensures Staked(s', id, e) == Staked(s, id, e) && Held(s', id) == Held(s, id) {
      SameHoldings(s, s', id, e);
    }
    forall v, e ensures Backing(s', v, e) == Backing(s, v, e) {
      var m, n := Backing(s, v, e), Backing(s', v, e);
      assert m.Keys == n.Keys;
      forall id | id in m ensures n[id] == m[id] {
        SameHoldings(s, s', id, e);
      }
    }
    var m, n := Holdings(s), Holdings(s');
    assert m.Keys == n.Keys;
    forall id | id in m ensures n[id] == m[id] {
      SameHoldings(s, s', id, 0);
    }
  }

  lemma SameHoldings(s: Pos, s': Pos, id: BondId, epoch: nat)
    requires s'.params == s.params && s'.bonds == s.bonds && s'.unbonds == s.unbonds
    ensures Staked(s', id, epoch) == Staked(s, id, epoch) && Held(s', id) == Held(s, id)
  {
  }

  lemma BecomeValidatorBonds(s: Pos, a: Address, reward: Address, s': Pos)
    requires Core(s) && BondsShaped(s) && BecomeValidator(s, a, reward) == Ok(s')
    ensures BondsShaped(s') && s'.bonds == s.bonds && s'.unbonds == s.unbonds && s'.slashes == s.slashes
    ensures s'.balance == s.balance
    ensures s'.params == s.params && s'.epoch == s.epoch
  {
    hide AddAt, InitAt, UpdateFrom, SetsTrack, StakesFit, SetsOk, PowersFollow, TotalPowerOk, StateLine, BondOk,
      UnbondOk;
  }

  lemma BecomeValidatorSolvent(s: Pos, a: Address, reward: Address, s': Pos)
    requires Core(s) && BondsShaped(s) && Solvent(s) && BecomeValidator(s, a, reward) == Ok(s')
    ensures Solvent(s')
  {
    hide BecomeValidator, Windows, SetsTrack, StakesFit, SetsOk, PowersFollow, TotalPowerOk, BondOk, UnbondOk, SumOf,
      Stake, Backing, Holdings;
    assert a !in s.states by {
      BecomeFresh(s, a, reward, s');
    }
    BecomeValidatorBonds(s, a, reward, s');
    BecameKeys(s, a, reward, s');
    SameBooks(s, s');
    forall v, e | v in s'.totals && s'.epoch <= e ensures Stake(s', v, e) == SumOf(Backing(s', v, e)) {
      BecameViews(s, a, reward, s', e);
      if v == a {
        NoBacking(s, a, e);
      }
    }
  }

  lemma BecomeFresh(s: Pos, a: Address, reward: Address, s': Pos)
    requires Windows(s) && Valid(s.params) && BecomeValidator(s, a, reward) == Ok(s')
    ensures a !in s.states
  {
  }

  lemma NoBacking(s: Pos, a: Address, epoch: nat)
    requires BondsShaped(s) && a !in s.states
    ensures SumOf(Backing(s, a, epoch)) == 0
  {
    hide BondOk, UnbondOk, Staked;
    assert Backing(s, a, epoch) == map[];
    SumOfNothing<BondId>();
  }

  lemma NextEpochBonds(s: Pos)
    requires BondsShaped(s)
    ensures BondsShaped(s.(epoch := s.epoch + 1))
    ensures Solvent(s) ==> Solvent(s.(epoch := s.epoch + 1))
  {
    hide Shaped, SumOf, Stake, Backing, Holdings;
    var s' := s.(epoch := s.epoch + 1);
    SameBooks(s, s');
    if Solvent(s) {
      forall v, e | v in s'.totals && s'.epoch <= e ensures Stake(s', v, e) == SumOf(Backing(s', v, e)) {
        SameStake(s, s', v, e);
      }
    }
  }

  lemma SlashUnfolds(s: Pos, v: Address, slashType: SlashType, evidenceEpoch: nat, s': Pos)
    returns (t: Pos, slashed: int)
    requires WindowsFit(s) && SlashValidator(s, v, slashType, evidenceEpoch) == Ok(s')
    ensures v in s.totals && v in s.powers
    ensures slashed == MulBpsSigned(SlashRate(s.params, slashType), At(s.totals[v], s.epoch))
    ensures ChangeStake(s, v, -slashed, s.params.pipelineLen) == Ok(t)
    ensures s' == t.(slashes := s'.slashes, balance := s'.balance)
  {
    hide ChangeStake, At, MulBpsSigned, SlashRate, SlashesOf;
    slashed := MulBpsSigned(SlashRate(s.params, slashType), At(s.totals[v], s.epoch));
    t := ChangeStake(s, v, -slashed, s.params.pipelineLen).value;
  }

  lemma SlashParts(s: Pos, v: Address, slashType: SlashType, evidenceEpoch: nat, s': Pos) returns (t: Pos, slashed: int)
    requires Windows(s) && Valid(s.params) && SlashValidator(s, v, slashType, evidenceEpoch) == Ok(s')
    ensures v in s.totals && slashed == MulBpsSigned(SlashRate(s.params, slashType), At(s.totals[v], s.epoch))
    ensures Changed(s, v, -slashed, s.params.pipelineLen, t)
    ensures s' == t.(slashes := s'.slashes, balance := s'.balance)
    ensures t.bonds == s.bonds && t.unbonds == s.unbonds && t.epoch == s.epoch && t.params == s.params
    ensures t.states == s.states
  {
    hide ChangeStake, At, StateLine, MulBpsSigned, MaxTotalVotingPower, SlashRate, SlashValidator;
    t, slashed := SlashUnfolds(s, v, slashType, evidenceEpoch, s');
    ChangeFrame(s, v, -slashed, s.params.pipelineLen, t);
  }

  lemma SlashBonds(s: Pos, v: Address, slashType: SlashType, evidenceEpoch: nat, s': Pos)
    requires Sound(s) && SlashValidator(s, v, slashType, evidenceEpoch) == Ok(s')
    ensures BondsShaped(s') && s'.bonds == s.bonds && s'.unbonds == s.unbonds && s'.params == s.params
    ensures s'.epoch == s.epoch
  {
    hide ChangeStake, At, Windows, MulBps, BondOk, UnbondOk, SlashValidator;
    var t, slashed := SlashParts(s, v, slashType, evidenceEpoch, s');
  }

  // ---------- genesis ----------

  lemma {:induction false} SumSelfBonds(tokens: map<Address, nat>, held: map<BondId, int>)
    requires forall id :: id in held <==> id.source == id.validator && id.source in tokens
    requires forall id :: id in held ==> held[id] == tokens[id.source]
    ensures SumOf(held) == SumOf(tokens)
    decreases |tokens|
  {
    if tokens == map[] {
      assert held == map[];
      SumOfNothing<Address>();
      SumOfNothing<BondId>();
    } else {
      var v :| v in tokens;
      assert BondId(v, v) in held;
      SumSplit(tokens, v);
      SumSplit(held, BondId(v, v));
      SumSelfBonds(tokens - {v}, held - {BondId(v, v)});
    }
  }

  lemma GenesisBond(params: PosParams, tokens: map<Address, nat>, g: nat, id: BondId)
    requires GenesisOk(params, tokens)
    ensures var s := Genesis(params, tokens, g);
      && (id in s.bonds <==> id.source == id.validator && id.source in tokens)
      && s.unbonds == map[]
      && (id in s.bonds ==> BondOk(s.bonds[id], params, g) && BondsOf(s, id) == map[g := tokens[id.source]])
  {
    hide InitAt, VotingPower, SumOf, Trim, AllOf, Shaped;
    var s := Genesis(params, tokens, g);
    if id in s.bonds {
      var value: Bond := map[g := tokens[id.source]];
      assert s.bonds[id] == SelfBond(tokens[id.source], g);
      AllOfInit(value, g, 0, params.pipelineLen);
      ShapedInit(StartRank, value, g, 0);
      InitAtFits(value, g, 0);
    }
  }

  lemma GenesisHeld(params: PosParams, tokens: map<Address, nat>, g: nat, v: Address, epoch: nat)
    requires GenesisOk(params, tokens) && g <= epoch && v in tokens
    ensures var s := Genesis(params, tokens, g);
      Held(s, BondId(v, v)) == tokens[v] == Staked(s, BondId(v, v), epoch)
  {
    hide InitAt, VotingPower, SumOf, Trim, AllOf, BondOk, Genesis, Keep, BondsOf;
    var s, id := Genesis(params, tokens, g), BondId(v, v);
    GenesisBond(params, tokens, g, id);
    var bond: Bond := map[g := tokens[v]];
    KeepAll(bond, StartedBy(epoch));
    KeepNone<(nat, nat)>(map[], AtStake(epoch));
    SumOfNothing<(nat, nat)>();
    SumSingle<nat>(g, tokens[v]);
  }

  lemma GenesisHoldings(params: PosParams, tokens: map<Address, nat>, g: nat)
    requires GenesisOk(params, tokens)
    ensures SumOf(Holdings(Genesis(params, tokens, g))) == SumOf(tokens)
    ensures BondsShaped(Genesis(params, tokens, g))
  {
    hide VotingPower, SumOf, BondOk, UnbondOk, Held, BondsOf, Genesis;
    var s := Genesis(params, tokens, g);
    forall id ensures id in s.bonds <==> id.source == id.validator && id.source in tokens {
      GenesisBond(params, tokens, g, id);
    }
    GenesisFields(params, tokens, g);
    forall id | id in s.bonds ensures BondOk(s.bonds[id], params, g) && Held(s, id) == tokens[id.source] {
      GenesisBond(params, tokens, g, id);
      GenesisHeld(params, tokens, g, id.source, g);
    }
    SumSelfBonds(tokens, Holdings(s));
  }

  lemma GenesisFields(params: PosParams, tokens: map<Address, nat>, g: nat)
    requires GenesisOk(params, tokens)
    ensures var s := Genesis(params, tokens, g);
      && s.params == params && s.epoch == g && s.unbonds == map[] && s.slashes == map[] && s.balance == SumOf(tokens)
      && s.states.Keys == tokens.Keys && s.totals.Keys == tokens.Keys
        && s.bonds.Keys == set v | v in tokens :: BondId(v, v)
  {
    hide InitAt, VotingPower, SumOf, Trim, SelfBond;
  }

  lemma GenesisBacking(params: PosParams, tokens: map<Address, nat>, g: nat, v: Address, epoch: nat)
    requires GenesisOk(params, tokens) && g <= epoch && v in tokens
    ensures SumOf(Backing(Genesis(params, tokens, g), v, epoch)) == tokens[v]
  {
    hide SumOf, Staked, Genesis;
    var s := Genesis(params, tokens, g);
    GenesisFields(params, tokens, g);
    GenesisHeld(params, tokens, g, v, epoch);
    assert Backing(s, v, epoch) == map[BondId(v, v) := tokens[v]];
    SumSingle(BondId(v, v), tokens[v]);
  }

  lemma GenesisSolvent(params: PosParams, tokens: map<Address, nat>, g: nat)
    requires GenesisOk(params, tokens)
    ensures BondsShaped(Genesis(params, tokens, g)) && Solvent(Genesis(params, tokens, g))
  {
    hide SumOf, Genesis, Stake, Backing, Holdings, BondsShaped;
    var s := Genesis(params, tokens, g);
    GenesisFields(params, tokens, g);
    GenesisHoldings(params, tokens, g);
    forall v, e | v in s.totals && s.epoch <= e ensures Stake(s, v, e) == SumOf(Backing(s, v, e)) {
      GenesisViews(params, tokens, g, e);
      GenesisBacking(params, tokens, g, v, e);
    }
  }
}

/**
 Particular transactions of several transitions: those of one validator, and two
 kinds that the check rejects although each of their transitions goes through.
 */
module TransactionCases {
  import opened Options
  import opened Timelines
  import opened Sums
  import opened Params
  import opened ValidatorSets
  import opened Ledger
  import opened StakeViews
  import opened CoreInvariant
  import opened CoreSteps
  import opened DeltaMaps
  import opened BondInvariant
  import opened Solvency
  import opened Runs
  import opened RunTheorems
  import opened EntryInvariant
  import opened Validation
  import opened WriterAgreement
  import opened Contributions
  import opened ReportedChanges
  import opened Reports
  import opened StakeReports
  import opened Agreement
  import opened Composition
  import opened Outcomes
  import opened RunProgress
  import opened RunExamples

  // ---------- one validator ----------

  ghost predicate AllOn(actions: seq<Action>, i: nat, j: nat, v: Address)
    requires j <= |actions|
  {
    forall k :: i <= k < j ==>
      (actions[k].DoBond? || actions[k].DoUnbond? || actions[k].DoWithdraw?) && actions[k].validator == v
  }

  lemma {:induction false} OwnKeys(actions: seq<Action>, i: nat, j: nat, v: Address)
    requires j <= |actions| && AllOn(actions, i, j, v)
    ensures StakedIn(actions, i, j) <= {v}
    ensures forall k :: k in WrittenIn(actions, i, j) && (k.BondKey? || k.UnbondKey?) ==> k.id.validator == v
    decreases j
  {
    if i < j {
      OwnKeys(actions, i, j - 1, v);
    }
  }

  lemma OthersAllowed(s: Pos, t: Pos, vs: set<Address>, keys: set<Key>, v: Address, w: Address)
    requires w != v && forall k :: k in keys && (k.BondKey? || k.UnbondKey?) ==> k.id.validator == v
    ensures NetAllowed(s, t, vs, keys, w)
  {
    hide SumOf, BondsOf, UnbondGain;
    assert UnbondsOwn(s, t, keys, w) == map[];
    SumOfNothing<BondId>();
    forall id: BondId | BondKey(id) in keys ensures id.validator == v {
      assert BondKey(id).BondKey?;
    }
  }

  /** In every run without slashes, a transaction on the bonds of one validator is
      accepted exactly when the validator's net change is allowed. */
  lemma OneValidatorTransaction(xs: seq<System>, actions: seq<Action>, i: nat, j: nat, v: Address,
                                changes: seq<Change>, order: seq<nat>)
    requires Run(xs, actions) && NoSlash(actions) && Transaction(xs, actions, i, j) && AllOn(actions, i, j, v)
    requires Genuine(changes, xs[i].pos, xs[j].pos) && KeysIn(changes) == WrittenIn(actions, i, j)
    ensures Accepts(xs[i].pos.params, changes, xs[i].pos.epoch, order) <==>
      NetAllowed(xs[i].pos, xs[j].pos, StakedIn(actions, i, j), WrittenIn(actions, i, j), v)
  {
    hide Run, NoSlash, Accepts, Genuine, KeysIn, WrittenIn, StakedIn, NetAllowed, Aligned, WentThrough, StakesMoved,
      TokensMoved, AllOn;
    var s, t, vs, keys := xs[i].pos, xs[j].pos, StakedIn(actions, i, j), WrittenIn(actions, i, j);
    TransactionsOfRuns(xs, actions, i, j, changes, order);
    TransactionMoves(xs, actions, i, j);
    OwnKeys(actions, i, j, v);
    forall w | w != v ensures NetAllowed(s, t, vs, keys, w) {
      OthersAllowed(s, t, vs, keys, v, w);
    }
    if vs == {} {
      NoneAligned(t);
    } else {
      assert vs == {v};
      OneAligned(s, t, v);
    }
  }

  lemma NoneAligned(t: Pos)
    ensures Aligned(t, {})
  {
  }

  // ---------- tokens bonded and unbonded again ----------

  lemma TwoSteps(actions: seq<Action>, i: nat)
    requires i + 2 <= |actions|
    ensures StakedIn(actions, i, i + 2) == StakedBy(actions[i]) + StakedBy(actions[i + 1])
    ensures WrittenIn(actions, i, i + 2) == WrittenBy(actions[i]) + WrittenBy(actions[i + 1])
  {
    hide StakedBy, WrittenBy;
    assert StakedIn(actions, i, i + 1) == StakedBy(actions[i]);
    assert WrittenIn(actions, i, i + 1) == WrittenBy(actions[i]);
  }

  /** The same tokens are bonded and unbonded: the unbond grows and the stake does
      not change. */
  lemma BackAndForth(s: Pos, m: Pos, t: Pos, source: Option<Address>, v: Address, amount: nat, taken: seq<Bond>)
    requires Sound(s) && Sound(m) && BondTokens(s, source, v, amount) == Ok(m)
    requires UnbondTokens(m, source, v, amount, taken) == Ok(t) && Takeable(m, IdOf(source, v), amount, taken)
    ensures BondGain(s, t, IdOf(source, v)) == 0 && UnbondGain(s, t, IdOf(source, v)) == amount
  {
    hide BondTokens, UnbondTokens, Windows, BondsShaped, SumOf, AddAmounts, AllOf, TakenInAll, UnbondDelta, Takes,
      DueBy, MaxTotalVotingPower;
    var id := IdOf(source, v);
    BondEffect(s, source, v, amount, m);
    UnbondEffect(m, source, v, amount, taken, t);
    UnbondDeltaPlaced(m, id, amount, taken);
    SumAddAmounts(BondsOf(s, id), BondDelta(s, amount));
    SumSingle<nat>(s.epoch + s.params.pipelineLen, amount);
    SumAddAmounts(BondsOf(t, id), TakenInAll(taken));
    SumAddAmounts(UnbondsOf(m, id), UnbondDelta(m, taken));
    assert UnbondsOf(m, id) == UnbondsOf(s, id);
  }

  lemma NotAllowed(s: Pos, t: Pos, vs: set<Address>, keys: set<Key>, id: BondId, amount: nat)
    requires TokensMoved(s, t, keys) && Core(s) && Core(t) && Solvent(s) && Solvent(t)
    requires OneBondKey(keys, id) && OneUnbondKey(keys, id) && BondKey(id) in keys && UnbondKey(id) in keys
    requires BondGain(s, t, id) == 0 && UnbondGain(s, t, id) == amount > 0
    ensures !NetAllowed(s, t, vs, keys, id.validator)
  {
    hide Core, Solvent, TokensMoved, SumOf, BondsOf, UnbondsOf, BondOf, UnbondOf, BondsTo, Contributes, UnbondsTo,
      NetOf, BondGain, UnbondGain;
    var v := id.validator;
    NetIsGain(s, t, keys, v);
    OneBond(s, t, keys, id, v);
    OneUnbond(s, t, keys, id, v);
    GainsAre(s, t, keys, id);
    UnbondsOwnSum(s, t, keys, v);
  }

  /** Tokens that are bonded and unbonded again in one transaction are rejected. */
  lemma BondedAndUnbondedRejected(xs: seq<System>, actions: seq<Action>, i: nat, source: Option<Address>, v: Address,
                                  amount: nat, taken: seq<Bond>, changes: seq<Change>, order: seq<nat>)
    requires Run(xs, actions) && NoSlash(actions) && Transaction(xs, actions, i, i + 2)
    requires actions[i] == DoBond(source, v, amount) && actions[i + 1] == DoUnbond(source, v, amount, taken)
    requires Genuine(changes, xs[i].pos, xs[i + 2].pos) && KeysIn(changes) == WrittenIn(actions, i, i + 2)
    ensures !Accepts(xs[i].pos.params, changes, xs[i].pos.epoch, order)
  {
    hide Run, NoSlash, Accepts, Genuine, KeysIn, WrittenIn, StakedIn, NetAllowed, Aligned, StakesMoved, TokensMoved,
      Inv, Next, BondTokens, UnbondTokens, Solvent, Core, BondGain, UnbondGain;
    var s, t := xs[i].pos, xs[i + 2].pos;
    TransactionsOfRuns(xs, actions, i, i + 2, changes, order);
    TransactionMoves(xs, actions, i, i + 2);
    TwoSteps(actions, i);
    RunSolvent(xs, actions, i);
    RunSolvent(xs, actions, i + 1);
    RunSolvent(xs, actions, i + 2);
    Unslashed(xs[i]);
    Unslashed(xs[i + 2]);
    StepsBackAndForth(xs, actions, i, source, v, amount, taken);
    NotAllowed(s, t, StakedIn(actions, i, i + 2), WrittenIn(actions, i, i + 2), IdOf(source, v), amount);
  }

  lemma StepsBackAndForth(xs: seq<System>, actions: seq<Action>, i: nat, source: Option<Address>, v: Address,
                          amount: nat, taken: seq<Bond>)
    requires Run(xs, actions) && Transaction(xs, actions, i, i + 2) && Inv(xs[i]) && Inv(xs[i + 1])
    requires actions[i] == DoBond(source, v, amount) && actions[i + 1] == DoUnbond(source, v, amount, taken)
    ensures BondGain(xs[i].pos, xs[i + 2].pos, IdOf(source, v)) == 0
    ensures UnbondGain(xs[i].pos, xs[i + 2].pos, IdOf(source, v)) == amount > 0
  {
    hide SetsTrack, StakesFit, SetsOk, PowersFollow, TotalPowerOk, Windows, BondsShaped, Books, EngineOk, Filled,
      Initial, BondTokens, UnbondTokens, Takeable, AfterBond, AfterUnbond, BondGain, UnbondGain, MaxTotalVotingPower,
      BondAfter, Changed;
    RunStep(xs, actions, i);
    RunStep(xs, actions, i + 1);
    var u := BondParts(xs[i].pos, source, v, amount, xs[i + 1].pos);
    BackAndForth(xs[i].pos, xs[i + 1].pos, xs[i + 2].pos, source, v, amount, taken);
  }

  // ---------- two validators ----------

  /** Where only the other validator's stake has an entry, a voting power is not
      aligned. */
  lemma NotAligned(t: Pos, vs: set<Address>, v: Address, w: Address, e: nat)
    requires vs <= t.totals.Keys && vs <= t.powers.Keys && v in vs && w in vs
    requires t.epoch <= e <= t.epoch + t.params.unbondingLen
    requires DeltaAt(t.powers[v], e).Some? && DeltaAt(t.totals[v], e).None? && DeltaAt(t.totals[w], e).Some?
    ensures !Aligned(t, vs)
  {
    hide DeltaAt;
    assert !OwnLatest(t, vs, v, e);
  }

  /** Bonding leaves entries for the voting power up to the unbonding offset, and for
      the stake at the pipeline offset only. */
  lemma EntriesOfBond(s: Pos, v: Address, amount: int, m: Pos)
    requires Core(s) && Changed(s, v, amount, s.params.pipelineLen, m)
    ensures v in s.totals && v in m.totals && v in m.powers
    ensures var e := s.epoch + s.params.unbondingLen;
      DeltaAt(m.powers[v], e).Some? && (DeltaAt(m.totals[v], e).Some? <==> DeltaAt(s.totals[v], e).Some?)
  {
    hide SetsTrack, StakesFit, SetsOk, PowersFollow, TotalPowerOk, ChangeStake, StateLine, MaxTotalVotingPower, AddAt,
      UpdateFrom, UpdatePowers, Mover, MoveFits, DeltaAt, Get;
    var c, i, off, e := s.epoch, s.params.pipelineLen, s.params.unbondingLen, s.epoch + s.params.unbondingLen;
    ChangeFrame(s, v, amount, i, m);
    AddAtSome(s.totals[v], amount, c, i, off, e);
    UpdatePowersSome(s.params, m.totals[v], s.powers[v], s.totalPower, c, c + i, m.powers[v], m.totalPower, e);
  }

  /** Unbonding leaves an entry for the stake at the unbonding offset. */
  lemma EntriesOfUnbond(m: Pos, w: Address, change: int, t: Pos)
    requires Core(m) && Changed(m, w, change, m.params.unbondingLen, t)
    ensures w in t.totals && DeltaAt(t.totals[w], m.epoch + m.params.unbondingLen).Some?
    ensures forall v :: v != w ==> Find(t.totals, v) == Find(m.totals, v) && Find(t.powers, v) == Find(m.powers, v)
  {
    hide SetsTrack, StakesFit, SetsOk, PowersFollow, TotalPowerOk, ChangeStake, StateLine, MaxTotalVotingPower, AddAt,
      UpdateFrom, UpdatePowers, Mover, MoveFits, DeltaAt, Get;
    var c, off := m.epoch, m.params.unbondingLen;
    ChangeFrame(m, w, change, off, t);
    AddAtSome(m.totals[w], change, c, off, off, c + off);
  }

  /** Bonding to one validator and unbonding from another in one transaction is
      rejected, unless the stake of the first already changes at the unbonding
      offset. */
  lemma TwoValidatorsRejected(xs: seq<System>, actions: seq<Action>, i: nat, changes: seq<Change>, order: seq<nat>)
    requires Run(xs, actions) && NoSlash(actions) && Transaction(xs, actions, i, i + 2)
    requires actions[i].DoBond? && actions[i + 1].DoUnbond? && actions[i].validator != actions[i + 1].validator
    requires Genuine(changes, xs[i].pos, xs[i + 2].pos) && KeysIn(changes) == WrittenIn(actions, i, i + 2)
    requires var s, v := xs[i].pos, actions[i].validator;
      v in s.totals && DeltaAt(s.totals[v], s.epoch + s.params.unbondingLen).None?
    ensures !Accepts(xs[i].pos.params, changes, xs[i].pos.epoch, order)
  {
    hide Run, NoSlash, Accepts, Genuine, KeysIn, WrittenIn, StakedIn, NetAllowed, Aligned, WentThrough, StakesMoved,
      Inv, Next, DeltaAt, WrittenBy;
    TransactionsOfRuns(xs, actions, i, i + 2, changes, order);
    TransactionMoves(xs, actions, i, i + 2);
    TwoSteps(actions, i);
    RunInv(xs, actions, i);
    RunInv(xs, actions, i + 1);
    RunInv(xs, actions, i + 2);
    MovedBasics(xs[i].pos, xs[i + 2].pos, StakedIn(actions, i, i + 2));
    StepsOfBoth(xs, actions, i);
    var s, t := xs[i].pos, xs[i + 2].pos;
    NotAligned(t, StakedIn(actions, i, i + 2), actions[i].validator, actions[i + 1].validator,
      s.epoch + s.params.unbondingLen);
  }

  lemma StepsOfBoth(xs: seq<System>, actions: seq<Action>, i: nat)
    requires Run(xs, actions) && Transaction(xs, actions, i, i + 2) && Inv(xs[i]) && Inv(xs[i + 1])
    requires actions[i].DoBond? && actions[i + 1].DoUnbond? && actions[i].validator != actions[i + 1].validator
    ensures var s, t, v, w := xs[i].pos, xs[i + 2].pos, actions[i].validator, actions[i + 1].validator;
      && v in s.totals && v in t.totals && w in t.totals && v in t.powers
      && var e := s.epoch + s.params.unbondingLen;
         && DeltaAt(t.powers[v], e).Some? && DeltaAt(t.totals[w], e).Some?
         && (DeltaAt(t.totals[v], e).Some? <==> DeltaAt(s.totals[v], e).Some?)
  {
    hide SetsTrack, StakesFit, SetsOk, PowersFollow, TotalPowerOk, Windows, BondsShaped, Books, EngineOk, Filled,
      Initial, BondTokens, UnbondTokens, Takeable, AfterBond, AfterUnbond, MaxTotalVotingPower, BondAfter, BondLeft,
      UnbondAfter, Changed, WorthInAll, DeltaAt, SumOf, Get;
    RunStep(xs, actions, i);
    RunStep(xs, actions, i + 1);
    var s, m, t := xs[i].pos, xs[i + 1].pos, xs[i + 2].pos;
    var a, b := actions[i], actions[i + 1];
    var u := BondParts(s, a.source, a.validator, a.amount, m);
    var q := UnbondParts(m, b.source, b.validator, b.amount, b.taken, t);
    EntriesOfBond(s, a.validator, a.amount, u);
    EntriesOfUnbond(m, b.validator, 0 - WorthInAll(b.taken, SlashesOf(m, b.validator)) as int, q);
    assert Find(q.totals, a.validator) == Find(m.totals, a.validator)
      && Find(q.powers, a.validator) == Find(m.powers, a.validator);
  }

  // ---------- both happen ----------

  /** From every genesis, a validator can bond tokens to itself and then unbond some
      of its own or of another validator's tokens. */
  lemma RunWithBoth(params: PosParams, tokens: map<Address, nat>, g: nat, v: Address, amount: nat, w: Address,
                    back: nat)
    returns (xs: seq<System>, actions: seq<Action>)
    requires GenesisOk(params, tokens) && v in tokens && w in tokens && amount > 0 && SumOf(tokens) + amount <= U64_MAX
    requires 0 < back <= tokens[w]
    ensures Run(xs, actions) && NoSlash(actions) && |actions| == 2 && Transaction(xs, actions, 0, 2)
    ensures xs[0].pos == Genesis(params, tokens, g) && actions[0] == DoBond(None, v, amount)
    ensures actions[1].DoUnbond? && actions[1].source == None && actions[1].validator == w && actions[1].amount == back
  {
    hide Run, Inv, GenesisOk, Genesis, Solvent, BondTokens, UnbondTokens, SumOf, Core, BondsShaped, BondsOf, Takeable;
    var x := RunStarts(params, tokens, g);
    RunSolvent([x], [], 0);
    InvCore(x);
    GenesisFields(params, tokens, g);
    BondOutcome(x.pos, None, v, amount);
    var a, y := RunGoesOn([x], [], DoBond(None, v, amount));
    var ys, bs := [x] + [y], [] + [a];
    RunStep(ys, bs, 0);
    RunSolvent(ys, bs, 1);
    InvCore(y);
    StillBonded(params, tokens, g, x, v, amount, y, w);
    var b, z := RunGoesOn(ys, bs, DoUnbond(None, w, back, []));
    UnbondOutcome(y.pos, None, w, back, b.taken);
    xs, actions := ys + [z], bs + [b];
    RunSize(xs, actions);
  }

  lemma StillBonded(params: PosParams, tokens: map<Address, nat>, g: nat, x: System, v: Address, amount: nat,
                    y: System, w: Address)
    requires GenesisOk(params, tokens) && x.pos == Genesis(params, tokens, g) && w in tokens
    requires Core(x.pos) && BondsShaped(x.pos) && WindowsFit(x.pos) && Next(x, DoBond(None, v, amount), y)
    ensures BondId(w, w) in y.pos.bonds && tokens[w] <= SumOf(BondsOf(y.pos, BondId(w, w)))
  {
    hide SetsTrack, StakesFit, SetsOk, PowersFollow, TotalPowerOk, Windows, BondsShaped, MaxTotalVotingPower,
      GenesisOk, Genesis, SumOf, AddAmounts, AllOf, BondTokens, BondOk, AfterBond;
    var s, id, j := x.pos, BondId(v, v), BondId(w, w);
    GenesisBond(params, tokens, g, j);
    SumSingle<nat>(g, tokens[w]);
    if BondTokens(s, None, v, amount).Ok? {
      BondEffect(s, None, v, amount, y.pos);
      SumAddAmounts(BondsOf(s, id), BondDelta(s, amount));
      SumNonNegative(BondDelta(s, amount));
      if w != v {
        RestSame(s.bonds, y.pos.bonds, id);
      } else {
        BondThere(s, None, v, amount, y.pos);
      }
    }
  }

  lemma BondThere(s: Pos, source: Option<Address>, v: Address, amount: nat, t: Pos)
    requires Windows(s) && Valid(s.params) && BondTokens(s, source, v, amount) == Ok(t)
    ensures IdOf(source, v) in t.bonds
  {
    hide BondTokens, Windows, Changed, BondAfter, Valid;
    var u := BondParts(s, source, v, amount, t);
  }

  /** Both rejections happen, from every genesis with two validators. */
  lemma RejectionsHappen(params: PosParams, tokens: map<Address, nat>, g: nat, v: Address, w: Address, amount: nat)
    returns (xs: seq<System>, actions: seq<Action>, ys: seq<System>, bs: seq<Action>)
    requires GenesisOk(params, tokens) && v in tokens && w in tokens && v != w && SumOf(tokens) + amount <= U64_MAX
    requires 0 < amount <= tokens[v]
    ensures Run(xs, actions) && NoSlash(actions) && |actions| == 2 && Transaction(xs, actions, 0, 2)
    ensures Run(ys, bs) && NoSlash(bs) && |bs| == 2 && Transaction(ys, bs, 0, 2)
    ensures forall changes, order ::
      Genuine(changes, xs[0].pos, xs[2].pos) && KeysIn(changes) == WrittenIn(actions, 0, 2) ==>
      !Accepts(params, changes, g, order)
    ensures forall changes, order ::
      Genuine(changes, ys[0].pos, ys[2].pos) && KeysIn(changes) == WrittenIn(bs, 0, 2) ==>
      !Accepts(params, changes, g, order)
  {
    hide Run, NoSlash, Accepts, Genuine, KeysIn, WrittenIn, Transaction, GenesisOk, Genesis, SumOf, DeltaAt;
    GenesisFields(params, tokens, g);
    NoPendingChange(params, tokens, g, v);
    xs, actions := RunWithBoth(params, tokens, g, v, amount, v, amount);
    var back := FirstToken(params, tokens, w);
    ys, bs := RunWithBoth(params, tokens, g, v, amount, w, back);
    RunSize(xs, actions);
    RunSize(ys, bs);
    forall changes, order | Genuine(changes, xs[0].pos, xs[2].pos) && KeysIn(changes) == WrittenIn(actions, 0, 2)
      ensures !Accepts(params, changes, g, order)
    {
      BondedAndUnbondedRejected(xs, actions, 0, None, v, amount, actions[1].taken, changes, order);
    }
    forall changes, order | Genuine(changes, ys[0].pos, ys[2].pos) && KeysIn(changes) == WrittenIn(bs, 0, 2)
      ensures !Accepts(params, changes, g, order)
    {
      TwoValidatorsRejected(ys, bs, 0, changes, order);
    }
  }

  lemma FirstToken(params: PosParams, tokens: map<Address, nat>, w: Address) returns (back: nat)
    requires GenesisOk(params, tokens) && w in tokens
    ensures 0 < back <= tokens[w]
  {
    back := tokens[w];
  }

  lemma NoPendingChange(params: PosParams, tokens: map<Address, nat>, g: nat, v: Address)
    requires GenesisOk(params, tokens) && v in tokens
    ensures v in Genesis(params, tokens, g).totals
    ensures DeltaAt(Genesis(params, tokens, g).totals[v], g + params.unbondingLen).None?
  {
    hide SumOf, VotingPower, Trim;
  }

  // ---------- a worthless bond ----------

  lemma NothingLeft(m: Bond, slash: Slash)
    requires slash.rate == BASIS && forall k :: k in m ==> k <= slash.epoch
    ensures WorthOf(m, [slash]) == 0
  {
    hide SumOf;
    var n := Worths(m, [slash]);
    forall k | k in m ensures n[k] == 0 {
      assert RatesFrom([slash], k) == [slash.rate];
      assert AfterSlashes([slash.rate], m[k]) == AfterSlash(BASIS, m[k]);
    }
    SumPointwise(n, n, n);
  }

  lemma TakenFromGenesis(s: Pos, id: BondId, g: nat, amount: nat, taken: seq<Bond>, slash: Slash)
    requires BondsShaped(s) && Takeable(s, id, amount, taken) && BondsOf(s, id) == map[g := amount]
    requires slash.rate == BASIS && g <= slash.epoch && s.params.unbondingLen > 0
    ensures WorthInAll(taken, [slash]) == 0 && SumOf(AllOf(BondLeft(s, id, taken), s.params.pipelineLen)) == 0
  {
    hide BondsShaped, Takes, SumOf, AllOf, TakenInAll, WorthInAll, WorthOf, BondOk, BondLeft, Advance, BondsOf;
    TakesSize(Advance(AddAmounts<nat>, s.bonds[id], s.epoch, s.params.pipelineLen).data, amount, taken);
    BondLeftOk(s, id, amount, taken);
    SumSingle<nat>(g, amount);
    var left := AllOf(BondLeft(s, id, taken), s.params.pipelineLen);
    SumAddAmounts(left, TakenInAll(taken));
    TakenWorth(s, id, amount, taken, [slash]);
    assert TakenInAll(taken).Keys <= AddAmounts(left, TakenInAll(taken)).Keys;
    NothingLeft(TakenInAll(taken), slash);
  }

  /** What a slash of the whole stake of a genesis validator leaves behind. */
  lemma AllSlashed(params: PosParams, tokens: map<Address, nat>, g: nat, x: System, v: Address, slashType: SlashType,
                   y: System)
    requires GenesisOk(params, tokens) && x.pos == Genesis(params, tokens, g) && v in tokens && Inv(x)
    requires SlashRate(params, slashType) == BASIS && Next(x, DoSlash(v, slashType, g), y)
    ensures y.pos.epoch == g && y.pos.params == params && BondId(v, v) in y.pos.bonds
    ensures SlashesOf(y.pos, v) == [Slash(g, slashType, BASIS)]
    ensures BondsOf(y.pos, BondId(v, v)) == map[g := tokens[v]]
  {
    hide SetsTrack, StakesFit, SetsOk, PowersFollow, TotalPowerOk, Windows, BondsShaped, Books, EngineOk, Filled,
      GenesisOk, Genesis, SlashValidator, ChangeStake, At, Joined, MaxTotalVotingPower, SumOf, AllOf, BondOk, MulBps;
    var s := x.pos;
    GenesisFields(params, tokens, g);
    GenesisBond(params, tokens, g, BondId(v, v));
    GenesisNoChange(params, tokens, g, v);
    SlashOutcome(s, v, slashType, g);
    SlashedWithin(s, v, slashType);
    forall e | s.epoch + s.params.pipelineLen <= e ensures SlashedAmount(s, v, slashType) <= Stake(s, v, e) {
      assert Stake(s, v, e) == Stake(s, v, s.epoch);
    }
    var t := SlashValidator(s, v, slashType, g).value;
    SlashBonds(s, v, slashType, g, t);
    SlashRecorded(s, v, slashType, g, t);
  }

  lemma SlashRecorded(s: Pos, v: Address, slashType: SlashType, evidence: nat, t: Pos)
    requires WindowsFit(s) && SlashValidator(s, v, slashType, evidence) == Ok(t)
    ensures SlashesOf(t, v) == SlashesOf(s, v) + [Slash(evidence, slashType, SlashRate(s.params, slashType))]
  {
    hide ChangeStake, At, MulBpsSigned;
  }

  /** A genesis validator's whole stake is slashed, and then all its tokens are
      unbonded: the unbonding goes through and is rejected. */
  lemma WorthlessRejected(params: PosParams, tokens: map<Address, nat>, g: nat, v: Address, slashType: SlashType)
    returns (xs: seq<System>, actions: seq<Action>)
    requires GenesisOk(params, tokens) && v in tokens && SlashRate(params, slashType) == BASIS
    ensures Run(xs, actions) && |xs| == 3 && |actions| == 2 && PastEvidence(xs, actions)
    ensures actions[0] == DoSlash(v, slashType, g) && WentThrough(xs[1].pos, actions[1])
    ensures forall changes, order ::
      Genuine(changes, xs[1].pos, xs[2].pos) && KeysIn(changes) == WrittenBy(actions[1]) ==>
      !Accepts(params, changes, g, order)
  {
    hide Run, Inv, GenesisOk, Genesis, UnbondTokens, SumOf, Core, BondsShaped, BondsOf, Takeable, Next, Accepts,
      Genuine, KeysIn, WrittenBy, WorthlessGone, SlashRate;
    var x := RunStarts(params, tokens, g);
    RunInv([x], [], 0);
    var a, y := RunGoesOn([x], [], DoSlash(v, slashType, g));
    var ys, bs := [x] + [y], [] + [a];
    RunStep(ys, bs, 0);
    AllSlashed(params, tokens, g, x, v, slashType, y);
    RunInv(ys, bs, 1);
    InvCore(y);
    var b, z := RunGoesOn(ys, bs, DoUnbond(None, v, tokens[v], []));
    xs, actions := ys + [z], bs + [b];
    RunSize(xs, actions);
    RunStep(xs, actions, 1);
    GenesisFields(params, tokens, g);
    PositiveTokens(params, tokens, v);
    UnbondsAll(y, z, g, v, tokens[v], b.taken, slashType);
    forall changes, order | Genuine(changes, xs[1].pos, xs[2].pos) && KeysIn(changes) == WrittenBy(actions[1])
      ensures !Accepts(params, changes, g, order)
    {
      AgreementOfRuns(xs, actions, 1, changes, order);
    }
  }

  lemma PositiveTokens(params: PosParams, tokens: map<Address, nat>, v: Address)
    requires GenesisOk(params, tokens) && v in tokens
    ensures tokens[v] > 0
  {
  }

  lemma UnbondsAll(y: System, z: System, g: nat, v: Address, amount: nat, taken: seq<Bond>, slashType: SlashType)
    requires Inv(y) && WindowsFit(y.pos) && Next(y, DoUnbond(None, v, amount, taken), z) && y.pos.epoch == g
    requires amount > 0
    requires SlashesOf(y.pos, v) == [Slash(g, slashType, BASIS)] && BondsOf(y.pos, BondId(v, v)) == map[g := amount]
    requires BondId(v, v) in y.pos.bonds && Takeable(y.pos, BondId(v, v), amount, taken)
    ensures WentThrough(y.pos, DoUnbond(None, v, amount, taken))
    ensures WorthlessGone(y.pos, DoUnbond(None, v, amount, taken), z.pos)
  {
    hide SetsTrack, SetsOk, PowersFollow, TotalPowerOk, Windows, BondsShaped, Books, EngineOk, Filled, UnbondTokens,
      ChangeStake, Stake, MaxTotalVotingPower, SumOf, AllOf, BondsOf, WorthInAll, Takes, AfterUnbond, Advance,
      BondLeft, UnbondAfter, Changed, Get, AddAmounts, BondOk;
    var s, id := y.pos, BondId(v, v);
    TakenFromGenesis(s, id, g, amount, taken, Slash(g, slashType, BASIS));
    SumSingle<nat>(g, amount);
    BondsKnown(s, id);
    forall e | s.epoch <= e ensures Stake(s, v, e) >= 0 {
      assert FitsU64(Stake(s, v, e));
    }
    UnbondOutcomeOfAny(s, None, v, amount, taken);
    var u := UnbondParts(s, None, v, amount, taken, z.pos);
    UnbondAfterFresh(s, id, amount, taken);
    BondLeftOk(s, id, amount, taken);
    TakesSize(Advance(AddAmounts<nat>, s.bonds[id], s.epoch, s.params.pipelineLen).data, amount, taken);
    BondSum(s, id, taken);
  }

  lemma BondsKnown(s: Pos, id: BondId)
    requires Core(s) && BondsShaped(s) && id in s.bonds
    ensures id.validator in s.totals
  {
    hide SetsTrack, StakesFit, SetsOk, PowersFollow, TotalPowerOk, BondOk, UnbondOk, StateLine, MaxTotalVotingPower;
  }
}

/**
 Where writer and checker agree: exactly when the check finds no error in what a
 successful transition writes, whatever the order in which the changes are reported
 and the check's hash maps are visited.
 */
module Agreement {
  import opened Options
  import opened Timelines
  import opened Sums
  import opened Params
  import opened ValidatorSets
  import opened Ledger
  import opened StakeViews
  import opened CoreInvariant
  import opened CoreSteps
  import opened DeltaMaps
  import opened BondInvariant
  import opened Solvency
  import opened Consensus
  import opened Runs
  import opened RunTheorems
  import opened EntryInvariant
  import opened Validation
  import opened ValidationSound
  import opened WriterAgreement
  import opened Contributions
  import opened ReportedChanges
  import opened Reports
  import opened StakeReports

  // ---------- the keys of one bond ----------

  function StakeKeysOf(v: Address): set<Key> {
    {TotalKey(v), PowerKey(v), SetsKey, TotalPowerKey}
  }

  function BondKeys(id: BondId): set<Key> {
    {BalanceKey, BondKey(id)} + StakeKeysOf(id.validator)
  }

  function UnbondKeys(id: BondId): set<Key> {
    {BondKey(id), UnbondKey(id)} + StakeKeysOf(id.validator)
  }

  function WithdrawKeys(id: BondId): set<Key> {
    {BalanceKey, UnbondKey(id)}
  }

  lemma OwnStakeKeys(id: BondId)
    ensures StakeKeys(BondKeys(id), {id.validator}) && StakeKeys(UnbondKeys(id), {id.validator})
    ensures StakeKeys(WithdrawKeys(id), {})
  {
  }

  ghost predicate OneBondKey(keys: set<Key>, id: BondId) {
    forall k :: k in keys && k.BondKey? ==> k.id == id
  }

  ghost predicate OneUnbondKey(keys: set<Key>, id: BondId) {
    forall k :: k in keys && k.UnbondKey? ==> k.id == id
  }

  /** What at most one bond and one unbond contribute. */
  lemma OneBond(s: Pos, t: Pos, keys: set<Key>, id: BondId, v: Address)
    requires OneBondKey(keys, id)
    ensures var x := if BondKey(id) in keys then BondOf(s, t, id) else None;
      && SumOf(AllBonds(s, t, keys)) == x.UnwrapOr(0)
      && SumOf(BondsTo(s, t, keys, v)) == (if v == id.validator then x.UnwrapOr(0) else 0)
      && (Contributes(s, t, keys, v) <==> v == id.validator && x.Some?)
  {
    hide SumOf, BondOf;
    var x := if BondKey(id) in keys then BondOf(s, t, id) else None;
    var one: map<BondId, int> := if BondKey(id) in keys then map[id := x.UnwrapOr(0)] else map[];
    assert AllBonds(s, t, keys) == one;
    assert BondsTo(s, t, keys, v) == if v == id.validator then one else map[];
    OneSum(one, id);
    SumOfNothing<BondId>();
    if BondKey(id) in keys && v == id.validator && x.Some? {
      assert Contributes(s, t, keys, v);
    }
  }

  lemma OneUnbond(s: Pos, t: Pos, keys: set<Key>, id: BondId, v: Address)
    requires OneUnbondKey(keys, id)
    ensures var x := if UnbondKey(id) in keys then UnbondOf(s, t, id) else None;
      && SumOf(AllUnbonds(s, t, keys)) == x.UnwrapOr(0)
      && SumOf(UnbondsTo(s, t, keys, v)) == (if v == id.validator then x.UnwrapOr(0) else 0)
  {
    hide SumOf, UnbondOf;
    var x := if UnbondKey(id) in keys then UnbondOf(s, t, id) else None;
    var one: map<BondId, int> := if UnbondKey(id) in keys then map[id := x.UnwrapOr(0)] else map[];
    assert AllUnbonds(s, t, keys) == one;
    assert UnbondsTo(s, t, keys, v) == if v == id.validator then one else map[];
    OneSum(one, id);
    SumOfNothing<BondId>();
  }

  lemma OneSum(m: map<BondId, int>, id: BondId)
    requires m == map[] || m == map[id := ValueAt(m, id)]
    ensures SumOf(m) == ValueAt(m, id)
  {
    SumOfNothing<BondId>();
    SumUpdate<BondId>(map[], id, ValueAt(m, id));
  }

  ghost function BondIn(s: Pos, t: Pos, keys: set<Key>, id: BondId): Option<int> {
    if BondKey(id) in keys then BondOf(s, t, id) else None
  }

  ghost function UnbondIn(s: Pos, t: Pos, keys: set<Key>, id: BondId): Option<int> {
    if UnbondKey(id) in keys then UnbondOf(s, t, id) else None
  }

  /** What a bond and an unbond contribute fits the change of stake. */
  ghost predicate NetFits(bond: Option<int>, unbond: Option<int>, net: int) {
    if net != 0 then bond.UnwrapOr(0) == net else bond.None? && unbond.UnwrapOr(0) <= 0
  }

  lemma OneNet(s: Pos, t: Pos, keys: set<Key>, vs: set<Address>, id: BondId, net: int, v: Address)
    requires OneBondKey(keys, id) && OneUnbondKey(keys, id) && vs <= {id.validator}
    requires net == if id.validator in vs then NetOf(s, t, id.validator) else 0
    ensures NetMatches(s, t, vs, keys, v) <==>
      v != id.validator || NetFits(BondIn(s, t, keys, id), UnbondIn(s, t, keys, id), net)
  {
    hide SumOf, BondOf, UnbondOf, NetOf, AllBonds, AllUnbonds, BondsTo, UnbondsTo, Contributes;
    OneBond(s, t, keys, id, v);
    OneUnbond(s, t, keys, id, v);
  }

  /** The verdict on the changes of one bond, by what its bond, its unbond, its
      stake and the balance have changed by. */
  lemma OneVerdict(s: Pos, t: Pos, keys: set<Key>, vs: set<Address>, id: BondId, net: int, balance: int)
    requires OneBondKey(keys, id) && OneUnbondKey(keys, id) && vs <= {id.validator}
    requires net == if id.validator in vs then NetOf(s, t, id.validator) else 0
    requires balance == if BalanceKey in keys then t.balance - s.balance else 0
    ensures var x, y := BondIn(s, t, keys, id), UnbondIn(s, t, keys, id);
      && (BalanceMatches(s, t, keys) <==> balance == x.UnwrapOr(0) + y.UnwrapOr(0))
      && ((forall v :: NetMatches(s, t, vs, keys, v)) <==> NetFits(x, y, net))
  {
    hide SumOf, BondOf, UnbondOf, NetOf, AllBonds, AllUnbonds, NetMatches, NetFits;
    forall v
      ensures NetMatches(s, t, vs, keys, v) <==>
        v != id.validator || NetFits(BondIn(s, t, keys, id), UnbondIn(s, t, keys, id), net)
    {
      OneNet(s, t, keys, vs, id, net, v);
    }
    OneBond(s, t, keys, id, id.validator);
    OneUnbond(s, t, keys, id, id.validator);
    if NetFits(BondIn(s, t, keys, id), UnbondIn(s, t, keys, id), net) {
    } else {
      assert !NetMatches(s, t, vs, keys, id.validator);
    }
  }

  lemma TokenOk(s: Pos, t: Pos, id: BondId)
    ensures OkOf(s.params, s.epoch, Reported(s, t, BondKey(id))) <==>
      BondDataOk(s.params, s.epoch, BondData(s, t, id), SlashesOf(t, id.validator))
    ensures OkOf(s.params, s.epoch, Reported(s, t, UnbondKey(id))) <==>
      (id in t.unbonds ==> t.unbonds[id].lastUpdate == s.epoch)
    ensures OkOf(s.params, s.epoch, Reported(s, t, BalanceKey))
  {
    hide BondDataOk, BondData;
  }

  // ---------- the three transitions ----------

  lemma CoreFits(s: Pos)
    requires Core(s)
    ensures WindowsFit(s)
  {
    hide SetsTrack, StakesFit, SetsOk, PowersFollow, TotalPowerOk, StateLine, MaxTotalVotingPower;
  }

  /** A change of stake is the net change. */
  lemma NetOfChange(s: Pos, v: Address, change: int, i: nat, u: Pos, t: Pos)
    requires Core(s) && Changed(s, v, change, i, u) && t.totals == u.totals
    ensures NetOf(s, t, v) == change
  {
    hide SetsTrack, StakesFit, SetsOk, PowersFollow, TotalPowerOk, ChangeStake, StateLine, MaxTotalVotingPower, At;
    ChangeStakes(s, v, change, i, u);
    assert Stake(t, v, s.epoch + s.params.unbondingLen) == Stake(u, v, s.epoch + s.params.unbondingLen);
  }

  lemma BondVerdict(s: Pos, source: Option<Address>, v: Address, amount: nat, t: Pos)
    requires Core(s) && BondsShaped(s) && BondTokens(s, source, v, amount) == Ok(t)
    ensures var keys := BondKeys(IdOf(source, v));
      TokenKeysOk(s, t, keys) && (forall w :: NetMatches(s, t, {v}, keys, w)) && BalanceMatches(s, t, keys) <==>
        BondValue(s, v, amount) == amount
  {
    hide SetsTrack, StakesFit, SetsOk, PowersFollow, TotalPowerOk, BondsShaped, BondTokens, Changed, BondAfter,
      MaxTotalVotingPower, Windows, BondDataOk, BondContribution, BondData, BondValue, OkOf, Reported, NetMatches,
      BalanceMatches, UnbondOf, NetOf;
    var id, keys, x := IdOf(source, v), BondKeys(IdOf(source, v)), BondValue(s, v, amount);
    var u := BondParts(s, source, v, amount, t);
    BondReport(s, source, v, amount, t);
    NetOfChange(s, v, amount, s.params.pipelineLen, u, t);
    OneVerdict(s, t, keys, {v}, id, amount, amount);
    TokenOk(s, t, id);
  }

  lemma UnbondVerdict(s: Pos, source: Option<Address>, v: Address, amount: nat, taken: seq<Bond>, t: Pos)
    requires Core(s) && BondsShaped(s)
    requires UnbondTokens(s, source, v, amount, taken) == Ok(t) && Takeable(s, IdOf(source, v), amount, taken)
    ensures var keys, worth := UnbondKeys(IdOf(source, v)), WorthInAll(taken, SlashesOf(s, v));
      TokenKeysOk(s, t, keys) && (forall w :: NetMatches(s, t, {v}, keys, w)) && BalanceMatches(s, t, keys) <==>
        UnbondValue(s, v, taken) == worth && (worth > 0 || IdOf(source, v) in t.bonds)
  {
    hide SetsTrack, StakesFit, SetsOk, PowersFollow, TotalPowerOk, BondsShaped, UnbondTokens, Changed,
      MaxTotalVotingPower, Windows, BondDataOk, BondContribution, UnbondContribution, BondData, UnbondData, OkOf,
      Reported, NetMatches, BalanceMatches, NetOf, UnbondValue, WorthInAll, BondLeft, UnbondAfter, Takeable, SumOf,
      Get;
    var id, keys, worth := IdOf(source, v), UnbondKeys(IdOf(source, v)), WorthInAll(taken, SlashesOf(s, v));
    var change := 0 - worth as int;
    var u := UnbondParts(s, source, v, amount, taken, t);
    UnbondReport(s, source, v, amount, taken, t);
    NetOfChange(s, v, change, s.params.unbondingLen, u, t);
    OneVerdict(s, t, keys, {v}, id, change, 0);
    TokenOk(s, t, id);
  }

  lemma WithdrawVerdict(s: Pos, source: Option<Address>, v: Address, t: Pos)
    requires Core(s) && BondsShaped(s) && WithdrawTokens(s, source, v) == Ok(t)
    ensures var keys := WithdrawKeys(IdOf(source, v));
      TokenKeysOk(s, t, keys) && (forall w :: NetMatches(s, t, {}, keys, w)) && BalanceMatches(s, t, keys)
  {
    hide SetsTrack, StakesFit, SetsOk, PowersFollow, TotalPowerOk, BondsShaped, WithdrawTokens, MaxTotalVotingPower,
      Windows, Get, BondContribution, UnbondContribution, BondData, UnbondData, OkOf, Reported, NetMatches,
      BalanceMatches, NetOf, DeleteHead, AddAmounts, DueBy, Withdrawable, BondDataOk, SumOf;
    var id, keys := IdOf(source, v), WithdrawKeys(IdOf(source, v));
    var r, q := WithdrawParts(s, source, v, t);
    WithdrawReport(s, source, v, t);
    OneVerdict(s, t, keys, {}, id, 0, t.balance - s.balance);
    TokenOk(s, t, id);
  }

  /** What a bonding writes is accepted exactly when the check takes the new tokens
      at their full value. */
  lemma BondAccepted(s: Pos, source: Option<Address>, v: Address, amount: nat, t: Pos, changes: seq<Change>,
                     order: seq<nat>)
    requires Core(s) && BondsShaped(s) && Entries(s) && BondTokens(s, source, v, amount) == Ok(t)
    requires Genuine(changes, s, t) && KeysIn(changes) == BondKeys(IdOf(source, v))
    ensures Accepts(s.params, changes, s.epoch, order) <==> BondValue(s, v, amount) == amount
  {
    hide Core, BondsShaped, Entries, BondTokens, Genuine, KeysIn, Accepts, BondValue, NetMatches, BalanceMatches,
      TokenKeysOk, StakesMoved, BondKeys, StakeKeys, Aligned;
    Unmoved(s);
    CoreFits(s);
    BondMoves(s, s, {}, source, v, amount, t);
    assert {} + {v} == {v};
    OneAligned(s, t, v);
    OwnStakeKeys(IdOf(source, v));
    AcceptsIff(changes, s, t, {v}, order);
    BondVerdict(s, source, v, amount, t);
  }

  /** What an unbonding writes is accepted exactly when the check takes the tokens at
      the same value in the bond and in the unbond, and a bond that is gone was worth
      something. */
  lemma UnbondAccepted(s: Pos, source: Option<Address>, v: Address, amount: nat, taken: seq<Bond>, t: Pos,
                       changes: seq<Change>, order: seq<nat>)
    requires Core(s) && BondsShaped(s) && Entries(s)
    requires UnbondTokens(s, source, v, amount, taken) == Ok(t) && Takeable(s, IdOf(source, v), amount, taken)
    requires Genuine(changes, s, t) && KeysIn(changes) == UnbondKeys(IdOf(source, v))
    ensures var worth := WorthInAll(taken, SlashesOf(s, v));
      Accepts(s.params, changes, s.epoch, order) <==>
        UnbondValue(s, v, taken) == worth && (worth > 0 || IdOf(source, v) in t.bonds)
  {
    hide Core, BondsShaped, Entries, UnbondTokens, Genuine, KeysIn, Accepts, UnbondValue, NetMatches, BalanceMatches,
      TokenKeysOk, StakesMoved, UnbondKeys, StakeKeys, Aligned, Takeable, WorthInAll;
    Unmoved(s);
    CoreFits(s);
    UnbondMoves(s, s, {}, source, v, amount, taken, t);
    assert {} + {v} == {v};
    OneAligned(s, t, v);
    OwnStakeKeys(IdOf(source, v));
    AcceptsIff(changes, s, t, {v}, order);
    UnbondVerdict(s, source, v, amount, taken, t);
  }

  /** What a withdrawal writes is accepted, whatever the slashes. */
  lemma WithdrawAccepted(s: Pos, source: Option<Address>, v: Address, t: Pos, changes: seq<Change>, order: seq<nat>)
    requires Core(s) && BondsShaped(s) && Entries(s) && WithdrawTokens(s, source, v) == Ok(t)
    requires Genuine(changes, s, t) && KeysIn(changes) == WithdrawKeys(IdOf(source, v))
    ensures Accepts(s.params, changes, s.epoch, order)
  {
    hide Core, BondsShaped, Entries, WithdrawTokens, Genuine, KeysIn, Accepts, NetMatches, BalanceMatches,
      TokenKeysOk, StakesMoved, WithdrawKeys, StakeKeys;
    Unmoved(s);
    CoreFits(s);
    WithdrawMoves(s, s, {}, source, v, t);
    OwnStakeKeys(IdOf(source, v));
    AcceptsIff(changes, s, t, {}, order);
    WithdrawVerdict(s, source, v, t);
  }

  // ---------- what a transition writes ----------

  /** The keys that a transition writes. */
  ghost function WrittenBy(a: Action): set<Key> {
    match a
    case DoBond(source, v, _) => BondKeys(IdOf(source, v))
    case DoUnbond(source, v, _, _) => UnbondKeys(IdOf(source, v))
    case DoWithdraw(source, v) => WithdrawKeys(IdOf(source, v))
    case _ => {}
  }

  /** The transition is a bonding, unbonding or withdrawal that went through. */
  ghost predicate WentThrough(s: Pos, a: Action) {
    WindowsFit(s) &&
    match a
    case DoBond(source, v, amount) => BondTokens(s, source, v, amount).Ok?
    case DoUnbond(source, v, amount, taken) => UnbondTokens(s, source, v, amount, taken).Ok?
    case DoWithdraw(source, v) => WithdrawTokens(s, source, v).Ok?
    case _ => false
  }

  // ---------- evidence about the past ----------

  /** The evidence for every slash of a run is of an epoch that has come. */
  ghost predicate PastEvidence(xs: seq<System>, actions: seq<Action>) {
    forall i :: 0 <= i < |actions| && i < |xs| && actions[i].DoSlash? ==> actions[i].evidenceEpoch <= xs[i].pos.epoch
  }

  ghost predicate EvidencePast(s: Pos) {
    forall v :: EvidenceBy(SlashesOf(s, v), s.epoch)
  }

  lemma EvidenceKept(s: Pos, t: Pos)
    requires EvidencePast(s) && t.slashes == s.slashes && s.epoch <= t.epoch
    ensures EvidencePast(t)
  {
    forall v ensures EvidenceBy(SlashesOf(t, v), t.epoch) {
      assert EvidenceBy(SlashesOf(s, v), s.epoch);
    }
  }

  lemma SlashEvidence(s: Pos, v: Address, slashType: SlashType, evidenceEpoch: nat, t: Pos)
    requires Windows(s) && Valid(s.params) && EvidencePast(s) && evidenceEpoch <= s.epoch
    requires SlashValidator(s, v, slashType, evidenceEpoch) == Ok(t)
    ensures EvidencePast(t)
  {
    hide ChangeStake, At, MulBpsSigned, StateLine, MaxTotalVotingPower;
    var u, slashed := SlashParts(s, v, slashType, evidenceEpoch, t);
    forall w ensures EvidenceBy(SlashesOf(t, w), t.epoch) {
      assert EvidenceBy(SlashesOf(s, w), s.epoch);
      assert w != v ==> SlashesOf(t, w) == SlashesOf(s, w);
    }
  }

  lemma EvidenceStep(x: System, a: Action, y: System)
    requires Inv(x) && Next(x, a, y) && EvidencePast(x.pos) && (a.DoSlash? ==> a.evidenceEpoch <= x.pos.epoch)
    ensures EvidencePast(y.pos)
  {
    hide SetsTrack, StakesFit, SetsOk, PowersFollow, TotalPowerOk, BondsShaped, Books, EngineOk, EvidencePast,
      Windows, Filled, BondTokens, UnbondTokens, Withdraw, WithdrawTokens, SlashValidator, BecomeValidator, Takeable,
      Lists, Replay, DueBy, ChangeStake, AddAmounts, UnbondsOf, BondsOf, Withdrawable, UnbondDelta, TakenInAll, SumOf,
      MaxTotalVotingPower;
    var s := x.pos;
    match a
    case DoBecome(address, reward) =>
      var r := BecomeValidator(s, address, reward);
      if r.Ok? {
        BecomeKeepsSlashes(s, address, reward, r.value);
        EvidenceKept(s, y.pos);
      }
    case DoBond(source, v, amount) =>
      var r := BondTokens(s, source, v, amount);
      if r.Ok? {
        BondEffect(s, source, v, amount, r.value);
        EvidenceKept(s, y.pos);
      }
    case DoUnbond(source, v, amount, taken) =>
      var r := UnbondTokens(s, source, v, amount, taken);
      if r.Ok? {
        UnbondEffect(s, source, v, amount, taken, r.value);
        EvidenceKept(s, y.pos);
      }
    case DoWithdraw(source, v) =>
      var r := Withdraw(s, source, v);
      if r.Ok? {
        WithdrawPays(s, source, v, r.value);
        WithdrawEffect(s, source, v, r.value.pos);
        EvidenceKept(s, y.pos);
      }
    case DoSlash(v, slashType, evidenceEpoch) =>
      var r := SlashValidator(s, v, slashType, evidenceEpoch);
      if r.Ok? { SlashEvidence(s, v, slashType, evidenceEpoch, r.value); }
    case DoNextEpoch(updates) =>
      EvidenceKept(s, y.pos);
  }

  lemma BecomeKeepsSlashes(s: Pos, a: Address, reward: Address, t: Pos)
    requires WindowsFit(s) && BecomeValidator(s, a, reward) == Ok(t)
    ensures t.slashes == s.slashes && t.epoch == s.epoch
  {
  }

  lemma GenesisEvidence(x: System, params: PosParams, tokens: map<Address, nat>, g: nat)
    requires Initial(x, params, tokens, g)
    ensures EvidencePast(x.pos)
  {
    hide Genesis, GenesisOk, Powerful, SetAt;
    GenesisFields(params, tokens, g);
  }

  lemma {:induction false} RunEvidence(xs: seq<System>, actions: seq<Action>, i: nat)
    requires Run(xs, actions) && PastEvidence(xs, actions) && i < |xs|
    ensures EvidencePast(xs[i].pos)
    decreases i
  {
    hide Inv, Initial, Next, EvidencePast;
    if i == 0 {
      var params, tokens, g :| Initial(xs[0], params, tokens, g);
      GenesisEvidence(xs[0], params, tokens, g);
    } else {
      RunEvidence(xs, actions, i - 1);
      RunInv(xs, actions, i - 1);
      RunStep(xs, actions, i - 1);
      EvidenceStep(xs[i - 1], actions[i - 1], xs[i]);
    }
  }

  /** With evidence about the past, the check takes bonded and unbonded tokens at
      the value that the transitions give them. */
  lemma ValuesKept(s: Pos, v: Address, amount: nat, id: BondId, taken: seq<Bond>)
    requires EvidencePast(s) && 0 < s.params.pipelineLen && 0 < s.params.unbondingLen
    ensures BondValue(s, v, amount) == amount
    ensures BondsShaped(s) && Takeable(s, id, amount, taken) ==>
      UnbondValue(s, v, taken) == WorthInAll(taken, SlashesOf(s, v))
  {
    hide RatesFrom, RatesWithin, EvidenceBy, BondsShaped, Takeable, WorthInAll, WorthOf, Withdrawable, Ending,
      TakenInAll, SlashesOf;
    var c, slashes := s.epoch, SlashesOf(s, v);
    assert EvidenceBy(slashes, c);
    PastRates(slashes, c, c + s.params.pipelineLen, c);
    if BondsShaped(s) && Takeable(s, id, amount, taken) {
      TakenWorth(s, id, amount, taken, slashes);
      WorthKept(TakenInAll(taken), slashes, c, c + s.params.unbondingLen - 1);
    }
  }

  // ---------- every run ----------

  /** An unbonding of all that is left of a bond, which slashes have made worthless. */
  ghost predicate WorthlessGone(s: Pos, a: Action, s': Pos) {
    a.DoUnbond? && WorthInAll(a.taken, SlashesOf(s, a.validator)) == 0 && IdOf(a.source, a.validator) !in s'.bonds
  }

  /** In every run whose evidence is about the past, what a successful bonding,
      unbonding or withdrawal writes is accepted by the check, in whatever order the
      changes are reported and the check visits the epochs, except exactly when the
      last tokens of a worthless bond are unbonded. */
  lemma AgreementOfRuns(xs: seq<System>, actions: seq<Action>, i: nat, changes: seq<Change>, order: seq<nat>)
    requires Run(xs, actions) && PastEvidence(xs, actions) && i < |actions| && WentThrough(xs[i].pos, actions[i])
    requires Genuine(changes, xs[i].pos, xs[i + 1].pos) && KeysIn(changes) == WrittenBy(actions[i])
    ensures Accepts(xs[i].pos.params, changes, xs[i].pos.epoch, order) <==>
      !WorthlessGone(xs[i].pos, actions[i], xs[i + 1].pos)
  {
    hide BondsShaped, Books, EngineOk, Initial, Genuine, Accepts, BondTokens, UnbondTokens, Filled, Windows,
      MaxTotalVotingPower, SetsTrack, StakesFit, SetsOk, PowersFollow, TotalPowerOk, BondValue, UnbondValue,
      EvidencePast, WorthInAll, Withdraw, Takeable, AfterBond, AfterUnbond, AfterWithdraw, DueBy, KeysIn, Entries,
      BondKeys, UnbondKeys, WithdrawKeys;
    RunInv(xs, actions, i);
    RunEntries(xs, actions, i);
    RunEvidence(xs, actions, i);
    RunStep(xs, actions, i);
    var s, s' := xs[i].pos, xs[i + 1].pos;
    match actions[i]
    case DoBond(source, v, amount) =>
      ValuesKept(s, v, amount, IdOf(source, v), []);
      BondAccepted(s, source, v, amount, s', changes, order);
    case DoUnbond(source, v, amount, taken) =>
      ValuesKept(s, v, amount, IdOf(source, v), taken);
      UnbondAccepted(s, source, v, amount, taken, s', changes, order);
    case DoWithdraw(source, v) => WithdrawAccepted(s, source, v, s', changes, order);
  }
}

/**
 Whole runs of the staking system, with what happened to every bond and what the
 consensus engine was told along the way, and the properties of every run.
 */
module Runs {
  import opened Options
  import opened Timelines
  import opened Sums
  import opened Params
  import opened ValidatorSets
  import opened Ledger
  import opened StakeViews
  import opened CoreInvariant
  import opened CoreSteps
  import opened DeltaMaps
  import opened BondInvariant
  import opened Solvency
  import opened Consensus

  /** What happened so far: tokens ever bonded, tokens unbonded by epoch, tokens
      paid out by withdrawals and slashed from them, and the consensus engine's
      validators. */
  datatype History = History(
    bonded: map<BondId, nat>,
    unbonded: map<BondId, map<nat, nat>>,
    withdrawn: map<BondId, nat>,
    slashed: map<BondId, nat>,
    engine: Engine)

  datatype System = System(pos: Pos, hist: History)

  datatype Action =
    | DoBecome(address: Address, reward: Address)
    | DoBond(source: Option<Address>, validator: Address, amount: nat)
    | DoUnbond(source: Option<Address>, validator: Address, amount: nat, taken: seq<Bond>)
    | DoWithdraw(source: Option<Address>, validator: Address)
    | DoSlash(validator: Address, slashType: SlashType, evidenceEpoch: nat)
    | DoNextEpoch(updates: seq<Update>)

  // ---------- steps ----------

  ghost function Unbonded(h: History, id: BondId): map<nat, nat> {
    if id in h.unbonded then h.unbonded[id] else map[]
  }

  ghost function AfterBond(h: History, id: BondId, amount: nat): History {
    h.(bonded := h.bonded[id := AmountAt(h.bonded, id) + amount])
  }

  ghost function AfterUnbond(h: History, id: BondId, amount: nat, epoch: nat): History {
    h.(unbonded := h.unbonded[id := Unbonded(h, id)[epoch := AmountAt(Unbonded(h, id), epoch) + amount]])
  }

  ghost function AfterWithdraw(h: History, id: BondId, paid: nat, slashed: nat): History {
    h.(withdrawn := h.withdrawn[id := AmountAt(h.withdrawn, id) + paid],
       slashed := h.slashed[id := AmountAt(h.slashed, id) + slashed])
  }

  /** The tokens that withdrawals took out of a bond, paid out or slashed. */
  ghost function Released(h: History, id: BondId): nat {
    AmountAt(h.withdrawn, id) + AmountAt(h.slashed, id)
  }

  ghost function OrElse<T>(outcome: Outcome<T>, otherwise: T): T {
    if outcome.Ok? then outcome.value else otherwise
  }

  /** After a withdrawal: paid out is what the account of the system has lost. */
  ghost function Withdrew(x: System, id: BondId, w: Withdrawal): System
    requires w.pos.balance <= x.pos.balance
  {
    System(w.pos, AfterWithdraw(x.hist, id, x.pos.balance - w.pos.balance, w.slashed))
  }

  /** One step of the system. A transition that fails changes nothing. */
  ghost predicate Next(x: System, a: Action, y: System) {
    var s := x.pos;
    WindowsFit(s) &&
    match a
    case DoBecome(address, reward) =>
      y == x.(pos := OrElse(BecomeValidator(s, address, reward), s))
    case DoBond(source, v, amount) =>
      var r := BondTokens(s, source, v, amount);
      y == if r.Ok? then System(r.value, AfterBond(x.hist, IdOf(source, v), amount)) else x
    case DoUnbond(source, v, amount, taken) =>
      var r := UnbondTokens(s, source, v, amount, taken);
      (r.Ok? ==> Takeable(s, IdOf(source, v), amount, taken)) &&
      y == if r.Ok? then System(r.value, AfterUnbond(x.hist, IdOf(source, v), amount, s.epoch)) else x
    case DoWithdraw(source, v) =>
      var r := Withdraw(s, source, v);
      y == if r.Ok? then Withdrew(x, IdOf(source, v), r.value) else x
    case DoSlash(v, slashType, evidenceEpoch) =>
      y == x.(pos := OrElse(SlashValidator(s, v, slashType, evidenceEpoch), s))
    case DoNextEpoch(updates) =>
      Lists(updates, s, s.epoch + 1) &&
      y == System(s.(epoch := s.epoch + 1), x.hist.(engine := Replay(x.hist.engine, updates)))
  }

  ghost predicate Initial(x: System, params: PosParams, tokens: map<Address, nat>, epoch: nat) {
    && GenesisOk(params, tokens)
    && x.pos == Genesis(params, tokens, epoch)
    && x.hist == History(map v | v in tokens ::
      BondId(v, v) := tokens[v], map[], map[], map[], Powerful(SetAt(x.pos, epoch)))
  }

  ghost predicate Run(xs: seq<System>, actions: seq<Action>) {
    && |xs| == |actions| + 1
    && (exists params, tokens, epoch :: Initial(xs[0], params, tokens, epoch))
    && (forall i :: 0 <= i < |actions| ==> Next(xs[i], actions[i], xs[i + 1]))
  }

  // ---------- the invariant of runs ----------

  /** Tokens ever bonded are bonded, unbonded, withdrawn or slashed. */
  ghost predicate ConservedAt(x: System, id: BondId) {
    AmountAt(x.hist.bonded, id) == SumOf(BondsOf(x.pos, id)) + SumOf(UnbondsOf(x.pos, id)) + Released(x.hist, id)
  }

  function MaturedBy(epoch: nat, unbondingLen: nat): nat -> bool {
    (k: nat) => k + unbondingLen <= epoch
  }

  /** The tokens unbonded at least the unbonding length before an epoch. */
  ghost function Matured(x: System, id: BondId, epoch: nat): int {
    SumOf(Keep(Unbonded(x.hist, id), MaturedBy(epoch, x.pos.params.unbondingLen)))
  }

  /** What was released and what is due by an epoch is what has matured by then. */
  ghost predicate DelayedAt(x: System, id: BondId, epoch: nat) {
    Released(x.hist, id) + SumOf(DueBy(x.pos, id, epoch)) == Matured(x, id, epoch)
  }

  ghost predicate Books(x: System) {
    && (forall id :: ConservedAt(x, id))
    && (forall id, e :: x.pos.epoch <= e ==> DelayedAt(x, id, e))
  }

  ghost predicate EngineOk(x: System) {
    x.hist.engine == Powerful(SetAt(x.pos, x.pos.epoch))
  }

  ghost predicate Inv(x: System) {
    Core(x.pos) && BondsShaped(x.pos) && Filled(x.pos) && Books(x) && EngineOk(x)
  }

  // ---------- the books of other bonds ----------

  /** One bond and its history differ at most. */
  ghost predicate OnlyBooks(x: System, y: System, id: BondId) {
    && OnlyBond(x.pos, y.pos, id) && y.pos.epoch == x.pos.epoch
    && y.hist.bonded - {id} == x.hist.bonded - {id}
    && y.hist.unbonded - {id} == x.hist.unbonded - {id}
    && y.hist.withdrawn - {id} == x.hist.withdrawn - {id}
    && y.hist.slashed - {id} == x.hist.slashed - {id}
  }

  lemma OtherBooks(x: System, y: System, id: BondId, j: BondId)
    requires OnlyBooks(x, y, id) && j != id
    ensures ConservedAt(y, j) <==> ConservedAt(x, j)
    ensures forall e :: DelayedAt(y, j, e) <==> DelayedAt(x, j, e)
  {
    hide SumOf, AllOf, Keep, Get;
    RestSame(x.pos.bonds, y.pos.bonds, id);
    RestSame(x.pos.unbonds, y.pos.unbonds, id);
    RestSame(x.hist.bonded, y.hist.bonded, id);
    RestSame(x.hist.unbonded, y.hist.unbonded, id);
    RestSame(x.hist.withdrawn, y.hist.withdrawn, id);
    RestSame(x.hist.slashed, y.hist.slashed, id);
    forall e ensures DelayedAt(y, j, e) <==> DelayedAt(x, j, e) {
      assert DueBy(y.pos, j, e) == DueBy(x.pos, j, e);
    }
  }

  lemma BooksFromOne(x: System, y: System, id: BondId)
    requires Books(x) && OnlyBooks(x, y, id) && ConservedAt(y, id)
    requires forall e :: x.pos.epoch <= e ==> DelayedAt(y, id, e)
    ensures Books(y)
  {
    hide ConservedAt, DelayedAt, OnlyBond;
    forall j ensures ConservedAt(y, j) {
      if j != id { OtherBooks(x, y, id, j); }
    }
    forall j, e | y.pos.epoch <= e ensures DelayedAt(y, j, e) {
      if j != id { OtherBooks(x, y, id, j); }
    }
  }

  // ---------- the books of one bond ----------

  lemma BondBooks(x: System, source: Option<Address>, v: Address, amount: nat, s': Pos)
    requires Sound(x.pos) && Books(x) && BondTokens(x.pos, source, v, amount) == Ok(s')
    ensures Books(System(s', AfterBond(x.hist, IdOf(source, v), amount)))
  {
    hide BondTokens, Sound, SumOf, AllOf, Keep, Get, AddAmounts;
    var s, id := x.pos, IdOf(source, v);
    var y := System(s', AfterBond(x.hist, id, amount));
    BondEffect(s, source, v, amount, s');
    SumAddAmounts(BondsOf(s, id), BondDelta(s, amount));
    SumSingle<nat>(s.epoch + s.params.pipelineLen, amount);
    UnbondsSame(s, s', id);
    assert ConservedAt(x, id);
    forall e | s.epoch <= e ensures DelayedAt(y, id, e) {
      assert DelayedAt(x, id, e);
    }
    assert y.hist.bonded - {id} == x.hist.bonded - {id};
    BooksFromOne(x, y, id);
  }

  /** Tokens unbonded now mature after the unbonding length. */
  lemma MaturedAfterUnbond(m: map<nat, nat>, epoch: nat, amount: nat, e: nat, unbondingLen: nat)
    ensures SumOf(Keep(m[epoch := AmountAt(m, epoch) + amount], MaturedBy(e, unbondingLen))) ==
      SumOf(Keep(m, MaturedBy(e, unbondingLen))) + if epoch + unbondingLen <= e then amount else 0
  {
    var p := MaturedBy(e, unbondingLen);
    var n := m[epoch := AmountAt(m, epoch) + amount];
    if p(epoch) {
      assert Keep(n, p) == Keep(m, p)[epoch := AmountAt(m, epoch) + amount];
      SumUpdate(Keep(m, p), epoch, AmountAt(m, epoch) + amount);
    } else {
      assert Keep(n, p) == Keep(m, p);
    }
  }

  lemma UnbondBooks(x: System, source: Option<Address>, v: Address, amount: nat, taken: seq<Bond>, s': Pos)
    requires Sound(x.pos) && Books(x) && UnbondTokens(x.pos, source, v, amount, taken) == Ok(s')
    requires Takeable(x.pos, IdOf(source, v), amount, taken)
    ensures Books(System(s', AfterUnbond(x.hist, IdOf(source, v), amount, x.pos.epoch)))
  {
    hide UnbondTokens, BondsShaped, Windows, SumOf, AllOf, Keep, Get, AddAmounts, TakenInAll, UnbondDelta, Takes,
      Advance;
    var s, id := x.pos, IdOf(source, v);
    var y := System(s', AfterUnbond(x.hist, id, amount, s.epoch));
    UnbondEffect(s, source, v, amount, taken, s');
    UnbondDeltaPlaced(s, id, amount, taken);
    SumAddAmounts(BondsOf(s', id), TakenInAll(taken));
    SumAddAmounts(UnbondsOf(s, id), UnbondDelta(s, taken));
    assert ConservedAt(x, id);
    forall e | s.epoch <= e ensures DelayedAt(y, id, e) {
      assert DelayedAt(x, id, e);
      SumAddAmounts(DueBy(s, id, e), UnbondDelta(s, taken));
      MaturedAfterUnbond(Unbonded(x.hist, id), s.epoch, amount, e, s.params.unbondingLen);
    }
    assert y.hist.unbonded - {id} == x.hist.unbonded - {id};
    BooksFromOne(x, y, id);
  }

  /** What a withdrawal pays out and slashes is what was due. */
  lemma WithdrawPays(s: Pos, source: Option<Address>, v: Address, w: Withdrawal)
    requires Sound(s) && Withdraw(s, source, v) == Ok(w)
    ensures WithdrawTokens(s, source, v) == Ok(w.pos)
    ensures w.withdrawn == s.balance - w.pos.balance
    ensures w.withdrawn + w.slashed == SumOf(DueBy(s, IdOf(source, v), s.epoch))
  {
    hide Get, AddAmounts, Windows, BondsShaped, SumOf, DeleteHead, Withdrawable, SlashedFrom;
    WithdrawnAndSlashed(DueBy(s, IdOf(source, v), s.epoch), SlashesOf(s, v));
  }

  lemma WithdrawBooks(x: System, source: Option<Address>, v: Address, w: Withdrawal)
    requires Sound(x.pos) && Books(x) && Withdraw(x.pos, source, v) == Ok(w)
    ensures Books(Withdrew(x, IdOf(source, v), w))
  {
    hide WithdrawTokens, Withdraw, BondsShaped, Windows, SumOf, AllOf, Keep, Get, AddAmounts, Withdrawable;
    var s, s', id := x.pos, w.pos, IdOf(source, v);
    var due := DueBy(s, id, s.epoch);
    var y := Withdrew(x, id, w);
    WithdrawPays(s, source, v, w);
    WithdrawEffect(s, source, v, s');
    SumAddAmounts(due, UnbondsOf(s', id));
    assert ConservedAt(x, id);
    forall e | s.epoch <= e ensures DelayedAt(y, id, e) {
      assert DelayedAt(x, id, e);
      SumAddAmounts(due, DueBy(s', id, e));
    }
    assert y.hist.withdrawn - {id} == x.hist.withdrawn - {id};
    assert y.hist.slashed - {id} == x.hist.slashed - {id};
    BooksFromOne(x, y, id);
  }

  lemma SameBooksKept(x: System, y: System)
    requires Books(x) && y.pos.params == x.pos.params && y.pos.bonds == x.pos.bonds && y.pos.unbonds == x.pos.unbonds
    requires x.pos.epoch <= y.pos.epoch
    requires y.hist.bonded == x.hist.bonded && y.hist.unbonded == x.hist.unbonded
    requires y.hist.withdrawn == x.hist.withdrawn && y.hist.slashed == x.hist.slashed
    ensures Books(y)
  {
    hide SumOf, AllOf, Keep, Get;
    forall id ensures ConservedAt(y, id) {
      assert ConservedAt(x, id);
    }
    forall id, e | y.pos.epoch <= e ensures DelayedAt(y, id, e) {
      assert DelayedAt(x, id, e);
    }
  }

  // ---------- every step keeps the invariant ----------

  /** A change of stake leaves the current validator set alone. */
  lemma CurrentSetKept(s: Pos, v: Address, change: int, i: nat, t: Pos)
    requires Core(s) && Changed(s, v, change, i, t) && s.params.pipelineLen <= i
    ensures SetAt(t, s.epoch) == SetAt(s, s.epoch) && t.epoch == s.epoch
  {
    hide ChangeStake, SetsOk, PowersFollow, TotalPowerOk, Reweigh, SetAt, Weight, MaxTotalVotingPower;
    ChangeSetAt(s, v, change, i, t, s.epoch);
    ChangeFrame(s, v, change, i, t);
  }

  lemma BondInv(x: System, source: Option<Address>, v: Address, amount: nat, s': Pos)
    requires Inv(x) && BondTokens(x.pos, source, v, amount) == Ok(s')
    ensures Inv(System(s', AfterBond(x.hist, IdOf(source, v), amount)))
  {
    hide BondTokens, Windows, SetsTrack, StakesFit, SetsOk, PowersFollow, TotalPowerOk, BondsShaped, Books, Powerful,
      ChangeStake, BondAfter;
    var t := BondParts(x.pos, source, v, amount, s');
    CurrentSetKept(x.pos, v, amount, x.pos.params.pipelineLen, t);
    BondCore(x.pos, source, v, amount, s');
    BondEffect(x.pos, source, v, amount, s');
    BondBooks(x, source, v, amount, s');
  }

  lemma UnbondInv(x: System, source: Option<Address>, v: Address, amount: nat, taken: seq<Bond>, s': Pos)
    requires Inv(x) && UnbondTokens(x.pos, source, v, amount, taken) == Ok(s')
    requires Takeable(x.pos, IdOf(source, v), amount, taken)
    ensures Inv(System(s', AfterUnbond(x.hist, IdOf(source, v), amount, x.pos.epoch)))
  {
    hide UnbondTokens, Windows, SetsTrack, StakesFit, SetsOk, PowersFollow, TotalPowerOk, BondsShaped, Books,
      Powerful, ChangeStake, BondLeft, UnbondAfter, WorthInAll, Takeable, SumOf, Get, UnbondDelta, TakenInAll,
      AddAmounts, BondsOf, UnbondsOf, DueBy;
    var s := x.pos;
    var t := UnbondParts(s, source, v, amount, taken, s');
    CurrentSetKept(s, v, 0 - WorthInAll(taken, SlashesOf(s, v)) as int, s.params.unbondingLen, t);
    UnbondCore(s, source, v, amount, taken, s');
    UnbondEffect(s, source, v, amount, taken, s');
    UnbondBooks(x, source, v, amount, taken, s');
    UnbondFilled(s, source, v, amount, taken, s');
  }

  lemma WithdrawInv(x: System, source: Option<Address>, v: Address, w: Withdrawal)
    requires Inv(x) && Withdraw(x.pos, source, v) == Ok(w)
    ensures Inv(Withdrew(x, IdOf(source, v), w))
  {
    hide WithdrawTokens, Withdraw, Windows, SetsTrack, StakesFit, SetsOk, PowersFollow, TotalPowerOk, BondsShaped,
      Books, Powerful, AddAmounts, UnbondsOf, DueBy, Withdrawable;
    var s' := w.pos;
    WithdrawPays(x.pos, source, v, w);
    WithdrawCore(x.pos, source, v, s');
    WithdrawEffect(x.pos, source, v, s');
    WithdrawBooks(x, source, v, w);
    WithdrawFilled(x.pos, source, v, s');
  }

  lemma SlashInv(x: System, v: Address, slashType: SlashType, evidenceEpoch: nat, s': Pos)
    requires Inv(x) && SlashValidator(x.pos, v, slashType, evidenceEpoch) == Ok(s')
    ensures Inv(x.(pos := s'))
  {
    hide SlashValidator, Windows, SetsTrack, StakesFit, SetsOk, PowersFollow, TotalPowerOk, BondsShaped, Books,
      Powerful, ChangeStake, MulBpsSigned, At;
    var t, slashed := SlashParts(x.pos, v, slashType, evidenceEpoch, s');
    CurrentSetKept(x.pos, v, -slashed, x.pos.params.pipelineLen, t);
    SlashCore(x.pos, v, slashType, evidenceEpoch, s');
    SlashBonds(x.pos, v, slashType, evidenceEpoch, s');
    SameBooksKept(x, x.(pos := s'));
  }

  lemma BecomeInv(x: System, a: Address, reward: Address, s': Pos)
    requires Inv(x) && BecomeValidator(x.pos, a, reward) == Ok(s')
    ensures Inv(x.(pos := s'))
  {
    hide BecomeValidator, Windows, SetsTrack, StakesFit, SetsOk, PowersFollow, TotalPowerOk, BondsShaped, Books,
      Powerful, SetAt;
    BecomeFresh(x.pos, a, reward, s');
    BecomeValidatorCore(x.pos, a, reward, s');
    BecomeValidatorBonds(x.pos, a, reward, s');
    BecameViews(x.pos, a, reward, s', x.pos.epoch);
    SameBooksKept(x, x.(pos := s'));
  }

  lemma NextEpochInv(x: System, updates: seq<Update>)
    requires Inv(x) && Lists(updates, x.pos, x.pos.epoch + 1)
    ensures Inv(System(x.pos.(epoch := x.pos.epoch + 1), x.hist.(engine := Replay(x.hist.engine, updates))))
  {
    hide Core, BondsShaped, Books, Powerful, Lists, Replay, Get;
    NextEpochCore(x.pos);
    NextEpochBonds(x.pos);
    EnterEpoch(x.pos, updates);
    SameBooksKept(x, System(x.pos.(epoch := x.pos.epoch + 1), x.hist.(engine := Replay(x.hist.engine, updates))));
  }

  lemma StepInv(x: System, a: Action, y: System)
    requires Inv(x) && Next(x, a, y)
    ensures Inv(y)
  {
    hide Inv, BondTokens, UnbondTokens, WithdrawTokens, Withdraw, SlashValidator, BecomeValidator, Takeable, Lists,
      Replay, AfterBond, AfterUnbond, AfterWithdraw, DueBy;
    match a
    case DoBecome(address, reward) =>
      var r := BecomeValidator(x.pos, address, reward);
      if r.Ok? { BecomeInv(x, address, reward, r.value); }
    case DoBond(source, v, amount) =>
      var r := BondTokens(x.pos, source, v, amount);
      if r.Ok? { BondInv(x, source, v, amount, r.value); }
    case DoUnbond(source, v, amount, taken) =>
      var r := UnbondTokens(x.pos, source, v, amount, taken);
      if r.Ok? { UnbondInv(x, source, v, amount, taken, r.value); }
    case DoWithdraw(source, v) =>
      var r := Withdraw(x.pos, source, v);
      if r.Ok? { WithdrawInv(x, source, v, r.value); }
    case DoSlash(v, slashType, evidenceEpoch) =>
      var r := SlashValidator(x.pos, v, slashType, evidenceEpoch);
      if r.Ok? { SlashInv(x, v, slashType, evidenceEpoch, r.value); }
    case DoNextEpoch(updates) =>
      NextEpochInv(x, updates);
  }

  // ---------- genesis ----------

  lemma GenesisBooks(x: System, params: PosParams, tokens: map<Address, nat>, g: nat)
    requires Initial(x, params, tokens, g)
    ensures Books(x)
  {
    hide SumOf, Genesis, Powerful, SetAt, Keep, BondsOf, GenesisOk;
    GenesisFields(params, tokens, g);
    SumOfNothing<(nat, nat)>();
    SumOfNothing<nat>();
    forall id ensures ConservedAt(x, id) {
      GenesisBond(params, tokens, g, id);
      if id in x.pos.bonds {
        SumSingle<nat>(g, tokens[id.source]);
        assert id == BondId(id.source, id.source);
      } else {
        NoBond(x.pos, id);
      }
    }
    forall id, e | g <= e ensures DelayedAt(x, id, e) {
      KeepNone<nat>(map[], MaturedBy(e, params.unbondingLen));
    }
  }

  lemma NoBond(s: Pos, id: BondId)
    requires id !in s.bonds
    ensures SumOf(BondsOf(s, id)) == 0
  {
    SumOfNothing<nat>();
  }

  lemma InitialInv(x: System, params: PosParams, tokens: map<Address, nat>, g: nat)
    requires Initial(x, params, tokens, g)
    ensures Inv(x) && Solvent(x.pos)
  {
    hide Genesis, Core, BondsShaped, Books, Solvent, Powerful, SetAt, GenesisOk;
    GenesisFields(params, tokens, g);
    GenesisCore(params, tokens, g);
    GenesisSolvent(params, tokens, g);
    GenesisBooks(x, params, tokens, g);
  }

  // ---------- every run ----------

  /** The invariant holds in every state of every run. */
  lemma {:induction false} RunInv(xs: seq<System>, actions: seq<Action>, i: nat)
    requires Run(xs, actions) && i < |xs|
    ensures Inv(xs[i])
    decreases i
  {
    hide Inv, Initial, Next;
    if i == 0 {
      var params, tokens, g :| Initial(xs[0], params, tokens, g);
      InitialInv(xs[0], params, tokens, g);
    } else {
      RunInv(xs, actions, i - 1);
      assert Next(xs[i - 1], actions[i - 1], xs[i - 1 + 1]);
      StepInv(xs[i - 1], actions[i - 1], xs[i]);
    }
  }
}

/**
 The staking state and its transitions, on values: every stored container is a
 `Timeline`. A transition yields a new state, an error, or `Panicked` where the
 code aborts on a failed conversion; in the last two cases nothing is written.
 */
module Ledger {
  import opened Options
  import opened Timelines
  import opened Sums
  import opened Params
  import opened ValidatorSets

  datatype BondId = BondId(source: Address, validator: Address)

  datatype ValidatorState = Inactive | Pending | Candidate

  /** Bonded amounts by the epoch in which they become active. */
  type Bond = map<nat, nat>

  /** Unbonded amounts by the start of their bond and the last epoch in which
      they are at stake. */
  type Unbond = map<(nat, nat), nat>

  datatype Pos = Pos(
    params: PosParams,
    epoch: nat,
    states: map<Address, Timeline<ValidatorState>>,
    totals: map<Address, Timeline<int>>,
    powers: map<Address, Timeline<int>>,
    bonds: map<BondId, Timeline<Bond>>,
    unbonds: map<BondId, Timeline<Unbond>>,
    sets: Timeline<ValidatorSet>,
    totalPower: Timeline<int>,
    slashes: map<Address, seq<Slash>>,
    balance: nat)

  datatype PosError =
    | AlreadyValidator
    | StakingRewardAddressEqValidatorAddress
    | NotAValidator
    | SourceMustNotBeAValidator
    | InactiveValidator
    | VotingPowerOverflow
    | ZeroAmount
    | NoBondFound
    | UnbondAmountGreaterThanBond(amount: nat, bonded: nat)
    | ValidatorHasNoBonds
    | ValidatorHasNoVotingPower
    | NoUnbondFound
    | NoWithdrawableUnbond
    | ValidatorHasNoTotalDeltas
    | NegativeStake(stake: int)
    | InvalidSlashChange(change: int)

  datatype Outcome<+T> = Ok(value: T) | Err(error: PosError) | Panicked {
    predicate IsFailure() {
      !Ok?
    }
    function PropagateFailure<U>(): Outcome<U>
      requires IsFailure()
    {
      match this
      case Err(e) => Err(e)
      case Panicked => Panicked
    }
    function Extract(): T
      requires Ok?
    {
      value
    }
  }

  function AddInts(a: int, b: int): int { a + b }

  function Find<K, V>(m: map<K, V>, k: K): Option<V> {
    if k in m then Some(m[k]) else None
  }

  /** An epoched sum, zero when nothing is stored. */
  function At(t: Timeline<int>, epoch: nat): int {
    Get(AddInts, t, epoch).UnwrapOr(0)
  }

  function StakeIn(total: Option<Timeline<int>>, epoch: nat): int {
    match total
    case Some(t) => At(t, epoch)
    case None => 0
  }

  predicate FitsU64(x: int) {
    0 <= x <= U64_MAX
  }

  function SlashesOf(s: Pos, validator: Address): seq<Slash> {
    if validator in s.slashes then s.slashes[validator] else []
  }

  // ---------- validator sets ----------

  /** The change of one validator's weight at an epoch, found from its total
      deltas before the change. */
  function Mover(params: PosParams, validator: Address, total: Option<Timeline<int>>, change: int)
    : (ValidatorSet, nat) -> ValidatorSet
  {
    (vs: ValidatorSet, epoch: nat) =>
      var pre, post := StakeIn(total, epoch), StakeIn(total, epoch) + change;
      if pre < 0 || post < 0 then vs
      else Reweigh(vs, validator, VotingPower(params, pre), VotingPower(params, post))
  }

  /** The epochs at which the validator sets are visited by an update. */
  predicate Visited(sets: Timeline<ValidatorSet>, start: nat, epoch: nat) {
    if epoch == start then Get(Later, sets, epoch).Some? else epoch > start && DeltaAt(sets, epoch).Some?
  }

  /** All the conversions to unsigned amounts succeed. */
  predicate MoveFits(sets: Timeline<ValidatorSet>, total: Option<Timeline<int>>, change: int, start: nat, end: nat) {
    forall x :: start <= x <= end && Visited(sets, start, x) ==>
      FitsU64(StakeIn(total, x)) && FitsU64(StakeIn(total, x) + change)
  }

  // ---------- voting powers ----------

  /** Recomputes the voting power at each epoch from `x` to the end of the window
      from the validator's stake, and adds the difference to its own and to the
      total voting power. */
  function UpdatePowers(params: PosParams, total: Timeline<int>, power: Timeline<int>, totalPower: Timeline<int>,
                        current: nat, x: nat)
    : Outcome<(Timeline<int>, Timeline<int>)>
    requires current <= x
    decreases current + params.unbondingLen + 1 - x
  {
    if x > current + params.unbondingLen then Ok((power, totalPower))
    else if !FitsU64(At(total, x)) then Panicked
    else
      match TryVotingPowerDelta(params, At(total, x))
      case None => Err(VotingPowerOverflow)
      case Some(now) =>
        var delta := now - At(power, x);
        UpdatePowers(params, total,
          AddAt(AddInts, power, delta, current, x - current, params.unbondingLen),
          AddAt(AddInts, totalPower, delta, current, x - current, params.unbondingLen),
          current, x + 1)
  }

  /** The containers that a change of stake writes. */
  datatype Written = Written(sets: Timeline<ValidatorSet>, total: Timeline<int>, power: Timeline<int>,
    totalPower: Timeline<int>)

  function TotalAfter(total: Option<Timeline<int>>, change: int, current: nat, i: nat, off: nat): Timeline<int>
    requires i <= off
  {
    match total
    case Some(t) => AddAt(AddInts, t, change, current, i, off)
    case None => InitAt(change, current, i)
  }

  function PowerBefore(power: Option<Timeline<int>>, current: nat, i: nat): Timeline<int> {
    match power
    case Some(p) => p
    case None => InitAt(0, current, i)
  }

  function Rewrite(params: PosParams, sets: Timeline<ValidatorSet>, total: Option<Timeline<int>>,
                   power: Option<Timeline<int>>, totalPower: Timeline<int>, validator: Address, change: int, i: nat,
                   current: nat): (r: Outcome<Written>)
    requires i <= params.unbondingLen && Fits(sets, params.unbondingLen)
  {
    var off := params.unbondingLen;
    if !MoveFits(sets, total, change, current + i, current + off) then Panicked
    else
      var total' := TotalAfter(total, change, current, i, off);
      var updated :- UpdatePowers(params, total', PowerBefore(power, current, i), totalPower, current, current + i);
      Ok(Written(UpdateFrom(Mover(params, validator, total, change), sets, current, i, off), total', updated.0,
        updated.1))
  }

  /** The change of a validator's stake from `i` epochs on, in all the views that
      depend on it: validator sets, total deltas, voting power, total power. */
  function ChangeStake(s: Pos, validator: Address, change: int, i: nat): (r: Outcome<Pos>)
    requires i <= s.params.unbondingLen && Fits(s.sets, s.params.unbondingLen)
  {
    var w :- Rewrite(s.params, s.sets, Find(s.totals, validator), Find(s.powers, validator), s.totalPower, validator,
      change, i, s.epoch);
    Ok(s.(sets := w.sets,
          totals := s.totals[validator := w.total],
          powers := s.powers[validator := w.power],
          totalPower := w.totalPower))
  }

  // ---------- transitions ----------

  function NewcomerAdder(validator: Address, slots: nat): (ValidatorSet, nat) -> ValidatorSet {
    (vs: ValidatorSet, epoch: nat) => AddNew(vs, validator, slots)
  }

  predicate WindowsFit(s: Pos) {
    && Fits(s.sets, s.params.unbondingLen)
    && s.params.pipelineLen < s.params.unbondingLen
  }

  function BecomeValidator(s: Pos, address: Address, rewardAddress: Address): (r: Outcome<Pos>)
    requires WindowsFit(s)
  {
    var c, pipeline := s.epoch, s.params.pipelineLen;
    if address in s.states then Err(AlreadyValidator)
    else if address == rewardAddress then Err(StakingRewardAddressEqValidatorAddress)
    else
      Ok(s.(states := s.states[address := AddAt(Later, InitAt(Pending, c, 0), Candidate, c, pipeline, pipeline)],
            totals := s.totals[address := InitAt(0, c, pipeline)],
            powers := s.powers[address := InitAt(0, c, pipeline)],
            sets := UpdateFrom(NewcomerAdder(address, s.params.maxValidatorSlots), s.sets, c, pipeline,
              s.params.unbondingLen)))
  }

  /** The validator is inactive in some epoch of a range. */
  predicate EverInactive(state: Timeline<ValidatorState>, start: nat, end: nat) {
    exists e :: start <= e < end && Get(Later, state, e) == Some(Inactive)
  }

  function BondTokens(s: Pos, source: Option<Address>, validator: Address, amount: nat): (r: Outcome<Pos>)
    requires WindowsFit(s)
  {
    var c, pipeline := s.epoch, s.params.pipelineLen;
    var id := BondId(source.UnwrapOr(validator), validator);
    if source.Some? && source.value != validator && source.value in s.states then Err(SourceMustNotBeAValidator)
    else if amount == 0 then Err(ZeroAmount)
    else if validator !in s.states then Err(NotAValidator)
    else if EverInactive(s.states[validator], c, c + pipeline) then Err(InactiveValidator)
    else
      var value: Bond := map[c + pipeline := amount];
      var bond := match Find(s.bonds, id)
        case Some(b) => AddAt(AddAmounts<nat>, b, value, c, pipeline, pipeline)
        case None => InitAt(value, c, pipeline);
      var s' :- ChangeStake(s, validator, amount, pipeline);
      if s.balance + amount > U64_MAX then Panicked
      else Ok(s'.(bonds := s'.bonds[id := bond], balance := s.balance + amount))
  }

  // ---------- taking tokens out of a bond ----------

  /** Amounts taken from one delta map: no more than there is, and all of it
      unless less is wanted. Which keys are drawn on depends on the order in which
      the hash map is visited. */
  ghost predicate TakesFrom(bond: Option<Bond>, want: nat, taken: Bond) {
    && (forall k :: k in taken ==>
          k in Total(bond) && taken[k] <= Total(bond)[k] && (taken[k] == 0 ==> Total(bond)[k] == 0))
    && SumOf(taken) == Min(want, SumOf(Total(bond)))
  }

  /** Amounts taken from the entries of a bond, the future-most entry first. */
  ghost predicate Takes(data: seq<Option<Bond>>, want: nat, taken: seq<Bond>)
    decreases |data|
  {
    |taken| == |data| &&
    (data != [] ==>
      var last := |data| - 1;
      && TakesFrom(data[last], want, taken[last])
      && Takes(data[..last], want - Min(want, SumOf(Total(data[last]))), taken[..last]))
  }

  /** What is left of a delta map; emptied keys are dropped. */
  function LeftIn(m: Bond, taken: Bond): Bond {
    map k | k in m && (k !in taken || taken[k] < m[k]) ::
      (if k in taken && taken[k] < m[k] then m[k] - taken[k] else m[k])
  }

  function LeftOver(bond: Option<Bond>, taken: Bond): Option<Bond> {
    match bond
    case None => None
    case Some(m) => Some(LeftIn(m, taken))
  }

  function LeftOvers(data: seq<Option<Bond>>, taken: seq<Bond>): seq<Option<Bond>>
    requires |data| == |taken|
  {
    seq(|data|, i requires 0 <= i < |data| => LeftOver(data[i], taken[i]))
  }

  /** All that was taken, by the start of the bond. */
  function TakenInAll(taken: seq<Bond>): Bond {
    if taken == [] then map[]
    else AddAmounts(TakenInAll(taken[..|taken| - 1]), taken[|taken| - 1])
  }

  /** Taken amounts as an unbond that ends at `end`. */
  function Ending(taken: Bond, end: nat): Unbond {
    map k | k in taken :: (k, end) := taken[k]
  }

  /** What the taken amounts are still worth after the validator's slashes. */
  ghost function WorthOf(taken: Bond, slashes: seq<Slash>): nat {
    SumNonNegative(Worths(taken, slashes));
    SumOf(Worths(taken, slashes))
  }

  ghost function Worths(taken: Bond, slashes: seq<Slash>): map<nat, int> {
    map k | k in taken :: AfterSlashes(RatesFrom(slashes, k), taken[k])
  }

  ghost function WorthInAll(taken: seq<Bond>, slashes: seq<Slash>): nat {
    if taken == [] then 0
    else WorthInAll(taken[..|taken| - 1], slashes) + WorthOf(taken[|taken| - 1], slashes)
  }

  ghost function UnbondTokens(s: Pos, source: Option<Address>, validator: Address, amount: nat,
                              taken: seq<Bond>): (r: Outcome<Pos>)
    requires WindowsFit(s)
  {
    var c, pipeline, off := s.epoch, s.params.pipelineLen, s.params.unbondingLen;
    var id := BondId(source.UnwrapOr(validator), validator);
    if id !in s.bonds then Err(NoBondFound)
    else if validator !in s.totals then Err(ValidatorHasNoBonds)
    else if validator !in s.powers then Err(ValidatorHasNoVotingPower)
    else if amount == 0 then Err(ZeroAmount)
    else
      var bonded := SumOf(Total(Get(AddAmounts<nat>, s.bonds[id], c + pipeline)));
      if amount > bonded then Err(UnbondAmountGreaterThanBond(amount, Max(bonded, 0)))
      else
        var advanced := Advance(AddAmounts<nat>, s.bonds[id], c, pipeline);
        if |taken| != |advanced.data| then Panicked
        else
          var bond := advanced.(data := LeftOvers(advanced.data, taken));
          var unbond := AddAt(AddAmounts<(nat, nat)>, if id in s.unbonds then s.unbonds[id] else InitAt(map[], c, off),
            Ending(TakenInAll(taken), c + off - 1), c, off, off);
          var worth := WorthInAll(taken, SlashesOf(s, validator));
          var s' :- ChangeStake(s, validator, 0 - worth as int, off);
          var bonds := if SumOf(Total(Get(AddAmounts<nat>, bond, c + pipeline))) != 0 then s.bonds[id := bond]
            else s.bonds - {id};
          Ok(s'.(bonds := bonds, unbonds := s.unbonds[id := unbond]))
  }

  // ---------- withdrawing ----------

  /** What unbonded amounts are worth after the slashes within their range, by key. */
  ghost function DueWorths(unbond: Unbond, slashes: seq<Slash>): map<(nat, nat), int> {
    map k | k in unbond :: AfterSlashes(RatesWithin(slashes, k.0, k.1), unbond[k])
  }

  /** What those slashes take off, by key. */
  ghost function DueSlashes(unbond: Unbond, slashes: seq<Slash>): map<(nat, nat), int> {
    map k | k in unbond :: SlashedOff(RatesWithin(slashes, k.0, k.1), unbond[k])
  }

  ghost function Withdrawable(unbond: Unbond, slashes: seq<Slash>): nat {
    SumNonNegative(DueWorths(unbond, slashes));
    SumOf(DueWorths(unbond, slashes))
  }

  ghost function SlashedFrom(unbond: Unbond, slashes: seq<Slash>): nat {
    SumNonNegative(DueSlashes(unbond, slashes));
    SumOf(DueSlashes(unbond, slashes))
  }

  /** The result of a withdrawal: the new state, the tokens paid out and those
      slashed. */
  datatype Withdrawal = Withdrawal(pos: Pos, withdrawn: nat, slashed: nat)

  ghost function Withdraw(s: Pos, source: Option<Address>, validator: Address): (r: Outcome<Withdrawal>)
    requires WindowsFit(s)
    ensures r.Ok? ==> r.value.pos.balance + r.value.withdrawn == s.balance
  {
    var c, off := s.epoch, s.params.unbondingLen;
    var id := BondId(source.UnwrapOr(validator), validator);
    if id !in s.unbonds then Err(NoUnbondFound)
    else
      match Get(AddAmounts<(nat, nat)>, s.unbonds[id], c)
      case None => Err(NoWithdrawableUnbond)
      case Some(due) =>
        var withdrawn := Withdrawable(due, SlashesOf(s, validator));
        var unbond := DeleteHead(AddAmounts<(nat, nat)>, s.unbonds[id], c, off);
        var unbonds := if SumOf(Total(Get(AddAmounts<(nat, nat)>, unbond, c + off))) != 0
          then s.unbonds[id := unbond] else s.unbonds - {id};
        if withdrawn > s.balance then Panicked
        else
          Ok(Withdrawal(s.(unbonds := unbonds, balance := s.balance - withdrawn), withdrawn,
            SlashedFrom(due, SlashesOf(s, validator))))
  }

  /** The state after a withdrawal. */
  ghost function WithdrawTokens(s: Pos, source: Option<Address>, validator: Address): (r: Outcome<Pos>)
    requires WindowsFit(s)
  {
    var w :- Withdraw(s, source, validator);
    Ok(w.pos)
  }

  // ---------- slashing ----------

  function SlashValidator(s: Pos, validator: Address, slashType: SlashType, evidenceEpoch: nat): (r: Outcome<Pos>)
    requires WindowsFit(s)
  {
    if validator !in s.totals then Err(ValidatorHasNoTotalDeltas)
    else if validator !in s.powers then Err(ValidatorHasNoVotingPower)
    else
      var rate := SlashRate(s.params, slashType);
      var stake := At(s.totals[validator], s.epoch);
      if stake < 0 then Err(NegativeStake(stake))
      else
        var slashed := MulBpsSigned(rate, stake);
        var s' :- ChangeStake(s, validator, -slashed, s.params.pipelineLen);
        if !FitsU64(slashed) then Err(InvalidSlashChange(slashed))
        else
          Ok(s'.(slashes := s.slashes[validator := SlashesOf(s, validator) + [Slash(evidenceEpoch, slashType, rate)]],
                 balance := if slashed <= s.balance then s.balance - slashed else s.balance))
  }

  // ---------- genesis ----------

  /** The self-bond of a genesis validator. */
  function SelfBond(tokens: nat, epoch: nat): Timeline<Bond> {
    var value: Bond := map[epoch := tokens];
    InitAt(value, epoch, 0)
  }

  ghost function GenesisPowers(params: PosParams, tokens: map<Address, nat>): map<Address, int> {
    map v | v in tokens :: VotingPower(params, tokens[v])
  }

  ghost function GenesisWeights(params: PosParams, tokens: map<Address, nat>): set<Weighted> {
    set v | v in tokens :: Weighted(VotingPower(params, tokens[v]), v)
  }

  ghost function GenesisStates(tokens: map<Address, nat>, epoch: nat): map<Address, Timeline<ValidatorState>> {
    map v | v in tokens :: InitAt(Candidate, epoch, 0)
  }

  ghost function GenesisTotals(tokens: map<Address, nat>, epoch: nat): map<Address, Timeline<int>> {
    map v | v in tokens :: InitAt(tokens[v], epoch, 0)
  }

  ghost function GenesisPowerLines(params: PosParams, tokens: map<Address, nat>,
                                   epoch: nat): map<Address, Timeline<int>> {
    map v | v in tokens :: InitAt(VotingPower(params, tokens[v]), epoch, 0)
  }

  ghost function GenesisBonds(tokens: map<Address, nat>, epoch: nat): map<BondId, Timeline<Bond>> {
    map v | v in tokens :: BondId(v, v) := SelfBond(tokens[v], epoch)
  }

  /** The state written at genesis for the validators' tokens. */
  ghost function Genesis(params: PosParams, tokens: map<Address, nat>, epoch: nat): (s: Pos)
    requires 0 <= SumOf(tokens)
  {
    Pos(params, epoch,
      GenesisStates(tokens, epoch),
      GenesisTotals(tokens, epoch),
      GenesisPowerLines(params, tokens, epoch),
      GenesisBonds(tokens, epoch),
      map[],
      InitAt(Trim(ValidatorSet(GenesisWeights(params, tokens), {}), params.maxValidatorSlots), epoch, 0),
      InitAt(SumOf(GenesisPowers(params, tokens)), epoch, 0),
      map[],
      SumOf(tokens))
  }
}

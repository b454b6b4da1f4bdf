/**
 The independent check of a list of changes to the staking data: what is
 accumulated from the changes, and the conditions under which no error is found.

 Nested hash maps by epoch and validator are maps keyed by the pair.
 */
module Validation {
  import opened Options
  import opened Timelines
  import opened Sums
  import opened Params
  import opened ValidatorSets
  import opened Ledger

  datatype Data<T> = Data(pre: Option<T>, post: Option<T>)

  datatype Change =
    | BalanceChange(balance: Data<nat>)
    | BondChange(id: BondId, bond: Data<Timeline<Bond>>, slashes: seq<Slash>)
    | UnbondChange(id: BondId, unbond: Data<Timeline<Unbond>>, slashes: seq<Slash>)
    | TotalDeltasChange(address: Address, total: Data<Timeline<int>>)
    | VotingPowerChange(address: Address, power: Data<Timeline<int>>)
    | ValidatorSetChange(sets: Data<Timeline<ValidatorSet>>)
    | TotalPowerChange(totalPower: Data<Timeline<int>>)

  /** What has been accumulated from the changes so far. `ok` means that no error
      has been found in any of them. */
  datatype Findings = Findings(
    ok: bool,
    balance: int,
    bonds: map<Address, int>,
    unbonds: map<Address, int>,
    totals: map<Address, int>,
    stakes: map<(nat, Address), (nat, nat)>,
    expected: map<nat, int>,
    powers: map<(nat, Address), nat>,
    sets: Option<(Timeline<ValidatorSet>, Timeline<ValidatorSet>)>,
    totalPower: map<nat, int>,
    newcomers: set<Address>)

  const NOTHING := Findings(true, 0, map[], map[], map[], map[], map[], map[], None, map[], {})

  /** A contribution added to a validator's entry, when there is one. */
  function Credit(m: map<Address, int>, v: Address, x: Option<int>): map<Address, int> {
    if x.Some? then m[v := ValueAt(m, v) + x.value] else m
  }

  function NonZero(x: int): Option<int> {
    if x != 0 then Some(x) else None
  }

  // ---------- stakes and voting powers ----------

  /** The delta of the prior state at an epoch; the first one takes in all that
      came before. */
  function Opening(t: Option<Timeline<int>>, current: nat, epoch: nat): int {
    match t
    case None => 0
    case Some(t) => if epoch == current then At(t, current) else DeltaAt(t, epoch).UnwrapOr(0)
  }

  function Delta(t: Timeline<int>, epoch: nat): int {
    DeltaAt(t, epoch).UnwrapOr(0)
  }

  function PreSum(t: Option<Timeline<int>>, current: nat, epoch: nat): int {
    if epoch <= current then Opening(t, current, current)
      else PreSum(t, current, epoch - 1) + Opening(t, current, epoch)
  }

  function PostSum(t: Timeline<int>, current: nat, epoch: nat): int {
    if epoch <= current then Delta(t, current) else PostSum(t, current, epoch - 1) + Delta(t, epoch)
  }

  /** Total deltas may grow at the pipeline offset and shrink at the unbonding
      offset; stakes stay within their type. */
  predicate TotalAllowed(params: PosParams, pre: Option<Timeline<int>>, post: Timeline<int>, current: nat, epoch: nat) {
    var entry := DeltaAt(post, epoch).Some?;
    var pipeline, unbonding := current + params.pipelineLen, current + params.unbondingLen;
    && (entry ==> FitsU64(PreSum(pre, current, epoch)) && FitsU64(PostSum(post, current, epoch)))
    && match pre
       case Some(_) =>
         var d := Delta(post, epoch) - Opening(pre, current, epoch);
         (d > 0 ==> epoch == pipeline) && (d < 0 ==> epoch == unbonding)
       case None => entry ==> epoch == pipeline || epoch == unbonding
  }

  predicate TotalOk(params: PosParams, pre: Option<Timeline<int>>, post: Timeline<int>, current: nat) {
    && post.lastUpdate == current
    && (forall e :: current <= e <= current + params.unbondingLen ==> TotalAllowed(params, pre, post, current, e))
    && PostSum(post, current, current + params.unbondingLen) >= 0
  }

  /** Stakes before and after, at the epochs with an entry after the change. */
  function StakeEntries(v: Address, pre: Option<Timeline<int>>, post: Timeline<int>, current: nat,
                        end: nat): map<(nat, Address), (nat, nat)> {
    map e | current <= e <= end && DeltaAt(post, e).Some? && FitsU64(PreSum(pre, current, e))
      && FitsU64(PostSum(post, current, e)) ::
      (e, v) := (PreSum(pre, current, e), PostSum(post, current, e))
  }

  predicate PowerOk(params: PosParams, post: Timeline<int>, current: nat) {
    && post.lastUpdate == current
    && forall e :: current <= e <= current + params.unbondingLen && DeltaAt(post, e).Some? ==>
      PostSum(post, current, e) >= 0
  }

  function PowerEntries(v: Address, post: Timeline<int>, current: nat, end: nat): map<(nat, Address), nat> {
    map e | current <= e <= end && DeltaAt(post, e).Some?
      && PostSum(post, current, e) >= 0 :: (e, v) := PostSum(post, current, e)
  }

  /** Where the deltas before and after differ, and by how much. */
  function PowerDiffs(pre: Option<Timeline<int>>, post: Timeline<int>, current: nat, end: nat): map<nat, int> {
    map e | current <= e <= end && DeltaAt(post, e).Some? && Delta(post, e) != Opening(pre, current, e) ::
      Delta(post, e) - Opening(pre, current, e)
  }

  function AddDiffs(m: map<nat, int>, d: map<nat, int>): map<nat, int> {
    map e | e in m.Keys + d.Keys :: ValueAt(m, e) + ValueAt(d, e)
  }

  function TotalPowerDiffs(pre: Timeline<int>, post: Timeline<int>, start: nat, end: nat): map<nat, int> {
    map e | start <= e <= end
      && Delta(post, e) != Opening(Some(pre), start, e) :: Delta(post, e) - Opening(Some(pre), start, e)
  }

  // ---------- bonds and unbonds ----------

  /** A signed amount after successive slashes, each rounded towards zero. */
  function AfterSignedSlashes(rates: seq<Rate>, x: int): int {
    if rates == [] then x else AfterSignedSlashes(rates[1..], x - MulBpsSigned(rates[0], x))
  }

  /** The check values an amount, or the lack of one, as the transitions do. */
  lemma {:induction false} SignedSlashes(rates: seq<Rate>, x: nat)
    ensures AfterSignedSlashes(rates, x) == AfterSlashes(rates, x)
    ensures AfterSignedSlashes(rates, 0 - x as int) == 0 - AfterSlashes(rates, x) as int
    decreases |rates|
  {
    hide MulBps;
    if rates != [] {
      SignedSlashes(rates[1..], AfterSlash(rates[0], x));
    }
  }

  /** The prior amounts seen so far, by key. */
  function Seen<K>(t: Timeline<map<K, nat>>, epoch: nat): map<K, nat>
    decreases epoch
  {
    if epoch < t.lastUpdate then map[]
    else if epoch == t.lastUpdate then Total(DeltaAt(t, epoch))
    else Seen(t, epoch - 1) + Total(DeltaAt(t, epoch))
  }

  function Negated<K>(m: map<K, nat>): map<K, int> {
    map k | k in m :: 0 - m[k] as int
  }

  /** Amounts added to the differences; those that come to nothing are dropped. */
  function AddDropping<K>(d: map<K, int>, m: map<K, nat>): map<K, int> {
    map k | k in d.Keys + m.Keys && !(k in d && k in m && d[k] + m[k] == 0) :: ValueAt(d, k) + AmountAt(m, k)
  }

  function Visit<K>(d: map<K, int>, pre: Timeline<map<K, nat>>, post: Timeline<map<K, nat>>, epoch: nat): map<K, int> {
    AddDropping(d + Negated(Total(DeltaAt(pre, epoch))), Total(DeltaAt(post, epoch)))
  }

  /** The differences between the amounts after and before, by key, after the
      epochs from the first one of `pre` to `epoch`. */
  function Differences<K>(pre: Timeline<map<K, nat>>, post: Timeline<map<K, nat>>, epoch: nat): map<K, int>
    decreases epoch
  {
    if epoch < pre.lastUpdate then map[]
    else if epoch == pre.lastUpdate then Visit(map[], pre, post, epoch)
    else Visit(Differences(pre, post, epoch - 1), pre, post, epoch)
  }

  /** The value of a difference or of an amount under a key, after slashes. */
  type Worth<!K> = (K, int) -> int

  function BondWorth(slashes: seq<Slash>): Worth<nat> {
    (start: nat, x: int) => AfterSignedSlashes(RatesFrom(slashes, start), x)
  }

  function UnbondWorth(slashes: seq<Slash>): Worth<(nat, nat)> {
    (key: (nat, nat), x: int) => AfterSignedSlashes(RatesWithin(slashes, key.0, key.1), x)
  }

  function Valued<K>(m: map<K, int>, worth: Worth<K>): map<K, int> {
    map k | k in m :: worth(k, m[k])
  }

  /** What the entries of a container from one epoch to another are worth. */
  ghost function WorthThrough<K>(t: Timeline<map<K, nat>>, worth: Worth<K>, start: nat, epoch: nat): int
    decreases epoch
  {
    var here := SumOf(Valued(Total(DeltaAt(t, epoch)), worth));
    if epoch <= start then here else WorthThrough(t, worth, start, epoch - 1) + here
  }

  /** One amount of an updated bond: positive, under its own epoch, and no more
      than there was unless it is new at the pipeline offset. */
  predicate AmountAllowed(pre: Timeline<Bond>, current: nat, pipeline: nat, epoch: nat, start: nat, amount: nat) {
    && amount != 0
    && (epoch == current ==> start <= current)
    && (epoch != current ==> start == epoch)
    && (epoch != pipeline ==> start in Seen(pre, epoch) && amount <= Seen(pre, epoch)[start])
  }

  predicate BondUpdateOk(params: PosParams, pre: Timeline<Bond>, post: Timeline<Bond>, current: nat) {
    var pipeline := current + params.pipelineLen;
    && post.lastUpdate == current
    && (pre.lastUpdate <= current ==>
      forall e, k :: pre.lastUpdate <= e <= pipeline && k in Total(DeltaAt(post, e)) ==>
        AmountAllowed(pre, current, pipeline, e, k, Total(DeltaAt(post, e))[k]))
  }

  predicate BondInitOk(params: PosParams, post: Timeline<Bond>, current: nat) {
    var pipeline := current + params.pipelineLen;
    && post.lastUpdate == current
    && forall e :: current <= e <= pipeline && DeltaAt(post, e).Some? ==>
      e == pipeline && forall k :: k in Total(DeltaAt(post, e)) ==> k == e
  }

  /** What a change contributes, in tokens after slashes: nothing for an update
      that makes no difference. A new container is read from epoch `first`. */
  ghost function Contribution<K>(data: Data<Timeline<map<K, nat>>>, worth: Worth<K>, current: nat, first: nat,
                                 off: nat): Option<int> {
    match (data.pre, data.post)
    case (Some(pre), Some(post)) =>
      if pre.lastUpdate > current then None
      else NonZero(SumOf(Valued(Differences(pre, post, current + off), worth)))
    case (None, Some(post)) => Some(WorthThrough(post, worth, first, first + off))
    case (Some(pre), None) => Some(0 - WorthThrough(pre, worth, pre.lastUpdate, pre.lastUpdate + off))
    case (None, None) => None
  }

  ghost function BondContribution(params: PosParams, current: nat, data: Data<Timeline<Bond>>,
                                  slashes: seq<Slash>): Option<int> {
    Contribution(data, BondWorth(slashes), current, current, params.pipelineLen)
  }

  ghost function UnbondContribution(params: PosParams, current: nat, data: Data<Timeline<Unbond>>,
                                    slashes: seq<Slash>): Option<int> {
    var first := if data.post.Some? then data.post.value.lastUpdate else current;
    Contribution(data, UnbondWorth(slashes), current, first, params.unbondingLen)
  }

  ghost predicate BondDataOk(params: PosParams, current: nat, data: Data<Timeline<Bond>>, slashes: seq<Slash>) {
    match (data.pre, data.post)
    case (Some(pre), Some(post)) => BondUpdateOk(params, pre, post, current)
    case (None, Some(post)) => BondInitOk(params, post, current)
      && BondContribution(params, current, data, slashes) != Some(0)
    case _ => true
  }

  // ---------- one change ----------

  /** No error is found in the change itself. Most data must not be deleted. */
  ghost predicate OkOf(params: PosParams, current: nat, change: Change) {
    match change
    case BalanceChange(data) => data.pre.Some? ==> data.post.Some?
    case BondChange(_, data, slashes) => BondDataOk(params, current, data, slashes)
    case UnbondChange(_, data, _) => data.post.Some? ==> data.post.value.lastUpdate == current
    case TotalDeltasChange(_, data) =>
      if data.post.Some? then TotalOk(params, data.pre, data.post.value, current) else data.pre.None?
    case VotingPowerChange(_, data) =>
      if data.post.Some? then PowerOk(params, data.post.value, current) else data.pre.None?
    case ValidatorSetChange(data) => data.pre.Some? && data.post.Some? && data.post.value.lastUpdate == current
    case TotalPowerChange(data) => data.pre.Some? && data.post.Some? && data.post.value.lastUpdate == current
  }

  function BalanceAfter(x: int, change: Change): int {
    match change
    case BalanceChange(data) => if data.post.Some? then x + data.post.value - data.pre.UnwrapOr(0) else x
    case _ => x
  }

  ghost function BondsAfter(params: PosParams, current: nat, m: map<Address, int>, change: Change): map<Address, int> {
    match change
    case BondChange(id, data, slashes) => Credit(m, id.validator, BondContribution(params, current, data, slashes))
    case _ => m
  }

  ghost function UnbondsAfter(params: PosParams, current: nat, m: map<Address, int>,
                              change: Change): map<Address, int> {
    match change
    case UnbondChange(id, data, slashes) => Credit(m, id.validator, UnbondContribution(params, current, data, slashes))
    case _ => m
  }

  function TotalsAfter(params: PosParams, current: nat, m: map<Address, int>, change: Change): map<Address, int> {
    if change.TotalDeltasChange? && change.total.post.Some? then
      var end := current + params.unbondingLen;
      Credit(m, change.address,
        NonZero(PostSum(change.total.post.value, current, end) - PreSum(change.total.pre, current, end)))
    else m
  }

  function StakesAfter(params: PosParams, current: nat, m: map<(nat, Address), (nat, nat)>, change: Change): map<(nat,
                       Address), (nat, nat)> {
    if change.TotalDeltasChange? && change.total.post.Some?
    then m + StakeEntries(change.address, change.total.pre, change.total.post.value, current,
      current + params.unbondingLen)
    else m
  }

  function ExpectedAfter(params: PosParams, current: nat, m: map<nat, int>, change: Change): map<nat, int> {
    if change.VotingPowerChange? && change.power.post.Some?
    then AddDiffs(m, PowerDiffs(change.power.pre, change.power.post.value, current, current + params.unbondingLen))
    else m
  }

  function PowersAfter(params: PosParams, current: nat, m: map<(nat, Address), nat>, change: Change): map<(nat,
                       Address), nat> {
    if change.VotingPowerChange? && change.power.post.Some?
    then m + PowerEntries(change.address, change.power.post.value, current, current + params.unbondingLen)
    else m
  }

  function SetsAfter(sets: Option<(Timeline<ValidatorSet>, Timeline<ValidatorSet>)>, change: Change)
    : Option<(Timeline<ValidatorSet>, Timeline<ValidatorSet>)>
  {
    if change.ValidatorSetChange? && change.sets.pre.Some? && change.sets.post.Some?
    then Some((change.sets.pre.value, change.sets.post.value))
    else sets
  }

  function TotalPowerAfter(params: PosParams, m: map<nat, int>, change: Change): map<nat, int> {
    if change.TotalPowerChange? && change.totalPower.pre.Some? && change.totalPower.post.Some? then
      var post := change.totalPower.post.value;
      m + TotalPowerDiffs(change.totalPower.pre.value, post, post.lastUpdate, post.lastUpdate + params.unbondingLen)
    else m
  }

  /** A validator is new when its total deltas or its voting power were not there
      before. */
  function NewcomersAfter(vs: set<Address>, change: Change): set<Address> {
    if change.TotalDeltasChange? && change.total.pre.None? && change.total.post.Some? then vs + {change.address}
    else if change.VotingPowerChange? && change.power.pre.None? && change.power.post.Some? then vs + {change.address}
    else vs
  }

  // ---------- all changes ----------

  ghost function Step(params: PosParams, current: nat, f: Findings, change: Change): Findings {
    Findings(
      f.ok && OkOf(params, current, change),
      BalanceAfter(f.balance, change),
      BondsAfter(params, current, f.bonds, change),
      UnbondsAfter(params, current, f.unbonds, change),
      TotalsAfter(params, current, f.totals, change),
      StakesAfter(params, current, f.stakes, change),
      ExpectedAfter(params, current, f.expected, change),
      PowersAfter(params, current, f.powers, change),
      SetsAfter(f.sets, change),
      TotalPowerAfter(params, f.totalPower, change),
      NewcomersAfter(f.newcomers, change))
  }

  ghost function Collect(params: PosParams, current: nat, changes: seq<Change>): Findings {
    if changes == [] then NOTHING
    else Step(params, current, Collect(params, current, changes[..|changes| - 1]), changes[|changes| - 1])
  }

  // ---------- the checks across changes ----------

  /** Total deltas change with the bonds of the same validator, and only then. */
  ghost predicate TotalsMatchBonds(f: Findings) {
    && (forall v :: v in f.totals ==> f.totals[v] == ValueAt(f.bonds, v))
    && (forall v :: v in f.bonds ==> v in f.totals)
    && (forall v :: v in f.unbonds && f.unbonds[v] > 0 ==> v in f.totals)
  }

  /** The stake found for a validator at the latest epoch up to `epoch`. */
  function LatestStake(f: Findings, v: Address, current: nat, epoch: nat): Option<nat> {
    if (epoch, v) in f.stakes then Some(f.stakes[(epoch, v)].1)
    else if epoch <= current then None
    else LatestStake(f, v, current, epoch - 1)
  }

  /** A member of an updated set has the weight of its changed stake; otherwise it
      is unchanged, new, or has the weight of a stake that changed earlier. */
  predicate WeightOk(params: PosParams, f: Findings, before: ValidatorSet, w: Weighted, current: nat, epoch: nat) {
    if (epoch, w.address) in f.stakes then w.power == VotingPower(params, f.stakes[(epoch, w.address)].1)
    else
      || w in before.active || w in before.inactive || w.address in f.newcomers
      || (epoch > current &&
          var x := LatestStake(f, w.address, current, epoch - 1);
          x.Some? && w.power == VotingPower(params, x.value))
  }

  predicate SetEntryOk(params: PosParams, f: Findings, before: Option<ValidatorSet>, vs: ValidatorSet, current: nat,
                       epoch: nat) {
    && |vs.active| <= params.maxValidatorSlots
    && (vs.inactive != {} && vs.active != {} ==> Last(vs.inactive).power <= First(vs.active).power)
    && before.Some?
    && forall w :: w in vs.active + vs.inactive ==> WeightOk(params, f, before.value, w, current, epoch)
  }

  predicate InOneSet(params: PosParams, f: Findings, vs: ValidatorSet, k: (nat, Address))
    requires k in f.stakes
  {
    var w := Weighted(VotingPower(params, f.stakes[k].1), k.1);
    (w in vs.active) != (w in vs.inactive)
  }

  /** Where the sets have no entry, the changed stakes must already be in them. */
  predicate StakesInSet(params: PosParams, f: Findings, vs: ValidatorSet, epoch: nat) {
    forall k :: k in f.stakes && k.0 == epoch ==> InOneSet(params, f, vs, k)
  }

  predicate AnyStake(f: Findings, epoch: nat) {
    exists k :: k in f.stakes && k.0 == epoch
  }

  /** The entry for an epoch; epochs before the last update read the head. */
  function EntryAt<T>(t: Timeline<T>, epoch: nat): Option<T> {
    DeltaAt(t, Max(t.lastUpdate, epoch))
  }

  predicate SetAtOk(params: PosParams, f: Findings, pre: Timeline<ValidatorSet>, post: Timeline<ValidatorSet>,
                    current: nat, epoch: nat) {
    match EntryAt(post, epoch)
    case Some(vs) => SetEntryOk(params, f, Get(Later, pre, epoch), vs, current, epoch)
    case None =>
      AnyStake(f, epoch) ==>
        Get(Later, post, epoch).Some? && StakesInSet(params, f, Get(Later, post, epoch).value, epoch)
  }

  predicate SetsChecked(params: PosParams, f: Findings, current: nat) {
    match f.sets
    case Some(sets) => forall e :: current <= e <= current + params.unbondingLen ==>
      SetAtOk(params, f, sets.0, sets.1, current, e)
    case None => f.powers == map[]
  }

  /** The latest epoch up to `epoch` with any changed stake. */
  function LatestEpoch(f: Findings, current: nat, epoch: nat): Option<nat> {
    if AnyStake(f, epoch) then Some(epoch)
    else if epoch <= current then None
    else LatestEpoch(f, current, epoch - 1)
  }

  predicate PowerMatches(params: PosParams, f: Findings, current: nat, k: (nat, Address))
    requires k in f.powers
  {
    var x := LatestEpoch(f, current, k.0);
    x.Some? && (x.value, k.1) in f.stakes && f.powers[k] == VotingPower(params, f.stakes[(x.value, k.1)].1)
  }

  /** Every changed voting power is that of a changed stake. */
  predicate PowersMatchStakes(params: PosParams, f: Findings, current: nat) {
    forall k :: k in f.powers ==> PowerMatches(params, f, current, k)
  }

  /** A changed stake shows in the voting power of its epoch, or makes no
      difference to it, or shows at the epoch that is visited just before. */
  predicate StakeShows(params: PosParams, f: Findings, k: (nat, Address), previous: Option<nat>)
    requires k in f.stakes
  {
    var before, after := VotingPower(params, f.stakes[k].0), VotingPower(params, f.stakes[k].1);
    if k in f.powers then f.powers[k] == after
    else
      || before == after
      || (previous.Some? && (previous.value, k.1) in f.powers && f.powers[(previous.value, k.1)] == after)
  }

  function Previous(order: seq<nat>, i: nat): Option<nat>
    requires i <= |order|
  {
    if i > 0 then Some(order[i - 1]) else None
  }

  predicate ShowAt(params: PosParams, f: Findings, epoch: nat, previous: Option<nat>) {
    forall k :: k in f.stakes && k.0 == epoch ==> StakeShows(params, f, k, previous)
  }

  /** The changed stakes, visited by epoch in some order. */
  predicate StakesMatchPowers(params: PosParams, f: Findings, order: seq<nat>) {
    forall i :: 0 <= i < |order| ==> ShowAt(params, f, order[i], Previous(order, i))
  }

  predicate TotalPowerChecked(f: Findings) {
    forall e :: e in f.expected ==> f.expected[e] == ValueAt(f.totalPower, e)
  }

  /** Without the other data of a new validator, a new one is always an error. */
  ghost predicate Clean(params: PosParams, f: Findings, current: nat, order: seq<nat>) {
    && f.ok
    && TotalsMatchBonds(f)
    && SetsChecked(params, f, current)
    && PowersMatchStakes(params, f, current)
    && StakesMatchPowers(params, f, order)
    && TotalPowerChecked(f)
    && f.newcomers == {}
    && f.balance == SumOf(f.bonds) + SumOf(f.unbonds)
  }

  /** The order in which a hash map by epoch is visited: each epoch with changed
      stakes once. */
  ghost predicate VisitOrder(f: Findings, order: seq<nat>) {
    && (forall e :: e in order <==> AnyStake(f, e))
    && (forall i, j :: 0 <= i < j < |order| ==> order[i] != order[j])
  }

  /** No error is found in the changes. */
  ghost predicate Accepts(params: PosParams, changes: seq<Change>, current: nat, order: seq<nat>) {
    Clean(params, Collect(params, current, changes), current, order)
  }
}

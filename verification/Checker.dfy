/**
 The check as a program: loops over the changes, their epochs and their hash maps
 that collect errors, proved to find none exactly when `Validation` accepts.
 */
module Checker {
  import opened Options
  import opened T = Timelines
  import opened Sums
  import opened Params
  import opened ValidatorSets
  import opened Ledger
  import opened Validation

  datatype CheckError =
    | InvalidLastUpdate
    | InvalidValidatorTotalDeltas(address: Address, stake: int)
    | EpochedDataWrongEpoch(got: nat)
    | NegativeTotalDeltasSum(address: Address)
    | MissingValidatorTotalDeltas(address: Address)
    | InvalidValidatorVotingPower(address: Address, power: int)
    | MissingValidatorVotingPower(address: Address)
    | MissingBalance
    | EmptyBond(id: BondId)
    | InvalidBondStartEpoch(id: BondId, got: nat)
    | InvalidNewBondEpoch(id: BondId, got: nat)
    | MissingValidatorSet
    | MissingTotalVotingPower
    | InvalidTotalDeltasSum(address: Address)
    | TooManyActiveValidators
    | ValidatorSetOutOfOrder
    | InvalidValidatorWeight(validator: Weighted)
    | WeightedValidatorNotFound(validator: Weighted, epoch: nat)
    | ValidatorSetDuplicate(validator: Weighted, epoch: nat)
    | ValidatorSetNotUpdated
    | InvalidVotingPowerChanges
    | InvalidVotingPowerChange(address: Address, epoch: nat)
    | InvalidTotalVotingPowerChange(epoch: nat)
    | InvalidNewValidator(address: Address)
    | InvalidBalances

  function LastUpdateErrors<T>(post: Timeline<T>, current: nat): seq<CheckError> {
    if post.lastUpdate != current then [InvalidLastUpdate] else []
  }

  // ---------- total deltas ----------

  /** The errors at one epoch of the total deltas. */
  method CheckTotalAt(params: PosParams, current: nat, v: Address, pre: Option<Timeline<int>>, post: Timeline<int>,
                      epoch: nat, preSum: int, postSum: int)
    returns (errors: seq<CheckError>)
    requires preSum == PreSum(pre, current, epoch) && postSum == PostSum(post, current, epoch)
    ensures errors == [] <==> TotalAllowed(params, pre, post, current, epoch)
  {
    hide PreSum, PostSum, Opening;
    errors := [];
    var pipeline, unbonding := current + params.pipelineLen, current + params.unbondingLen;
    var entry := DeltaAt(post, epoch).Some?;
    if entry && !(FitsU64(preSum) && FitsU64(postSum)) {
      errors := errors + [InvalidValidatorTotalDeltas(v, postSum)];
    }
    if pre.Some? {
      var d := Delta(post, epoch) - Opening(pre, current, epoch);
      if d > 0 && epoch != pipeline {
        errors := errors + [EpochedDataWrongEpoch(epoch)];
      }
      if d < 0 && epoch != unbonding {
        errors := errors + [EpochedDataWrongEpoch(epoch)];
      }
    } else if entry && epoch != pipeline && epoch != unbonding {
      errors := errors + [EpochedDataWrongEpoch(epoch)];
    }
  }

  /** The stakes found before an epoch. */
  ghost function StakesBefore(v: Address, pre: Option<Timeline<int>>, post: Timeline<int>, current: nat,
                              epoch: nat): map<(nat, Address), (nat, nat)> {
    if epoch <= current then map[] else StakeEntries(v, pre, post, current, epoch - 1)
  }

  lemma StakesNext(v: Address, pre: Option<Timeline<int>>, post: Timeline<int>, current: nat, e: nat)
    requires current <= e
    ensures var x, y := PreSum(pre, current, e), PostSum(post, current, e);
      StakesBefore(v, pre, post, current, e + 1) ==
        if DeltaAt(post, e).Some? && FitsU64(x)
          && FitsU64(y) then StakesBefore(v, pre, post, current, e)[(e, v) := (x, y)]
        else StakesBefore(v, pre, post, current, e)
  {
    hide PreSum, PostSum, DeltaAt;
  }

  method CheckTotal(params: PosParams, current: nat, v: Address, pre: Option<Timeline<int>>, post: Timeline<int>)
    returns (errors: seq<CheckError>, stakes: map<(nat, Address), (nat, nat)>, delta: int)
    ensures errors == [] <==> TotalOk(params, pre, post, current)
    ensures stakes == StakeEntries(v, pre, post, current, current + params.unbondingLen)
    ensures delta == PostSum(post, current, current + params.unbondingLen) - PreSum(pre, current,
      current + params.unbondingLen)
  {
    hide TotalAllowed, StakesBefore, StakeEntries, Opening, Delta, DeltaAt;
    errors, stakes := LastUpdateErrors(post, current), map[];
    var preSum, postSum, end := 0, 0, current + params.unbondingLen;
    NoStakesBefore(v, pre, post, current);
    for e := current to end + 1
      invariant e > current ==> preSum == PreSum(pre, current, e - 1) && postSum == PostSum(post, current, e - 1)
      invariant e == current ==> preSum == postSum == 0
      invariant stakes == StakesBefore(v, pre, post, current, e)
      invariant errors == [] <==>
        post.lastUpdate == current && forall x :: current <= x < e ==> TotalAllowed(params, pre, post, current, x)
    {
      preSum := preSum + Opening(pre, current, e);
      postSum := postSum + Delta(post, e);
      assert preSum == PreSum(pre, current, e) && postSum == PostSum(post, current, e);
      StakesNext(v, pre, post, current, e);
      if DeltaAt(post, e).Some? && FitsU64(preSum) && FitsU64(postSum) {
        stakes := stakes[(e, v) := (preSum, postSum)];
      }
      var found := CheckTotalAt(params, current, v, pre, post, e, preSum, postSum);
      errors := errors + found;
    }
    if postSum < 0 {
      errors := errors + [NegativeTotalDeltasSum(v)];
    }
    delta := postSum - preSum;
    StakesWhole(v, pre, post, current, end);
  }

  lemma NoStakesBefore(v: Address, pre: Option<Timeline<int>>, post: Timeline<int>, current: nat)
    ensures StakesBefore(v, pre, post, current, current) == map[]
  {
  }

  lemma StakesWhole(v: Address, pre: Option<Timeline<int>>, post: Timeline<int>, current: nat, end: nat)
    requires current <= end
    ensures StakesBefore(v, pre, post, current, end + 1) == StakeEntries(v, pre, post, current, end)
  {
  }

  // ---------- voting powers ----------

  ghost function PowersBefore(v: Address, post: Timeline<int>, current: nat, epoch: nat): map<(nat, Address), nat> {
    if epoch <= current then map[] else PowerEntries(v, post, current, epoch - 1)
  }

  ghost function DiffsBefore(pre: Option<Timeline<int>>, post: Timeline<int>, current: nat, epoch: nat): map<nat, int> {
    if epoch <= current then map[] else PowerDiffs(pre, post, current, epoch - 1)
  }

  lemma PowersNext(v: Address, post: Timeline<int>, current: nat, e: nat)
    requires current <= e
    ensures PowersBefore(v, post, current, e + 1) ==
      if DeltaAt(post, e).Some?
        && PostSum(post, current, e) >= 0 then PowersBefore(v, post, current, e)[(e, v) := PostSum(post, current, e)]
      else PowersBefore(v, post, current, e)
  {
    hide PostSum, DeltaAt;
  }

  lemma DiffsNext(pre: Option<Timeline<int>>, post: Timeline<int>, current: nat, e: nat)
    requires current <= e
    ensures DiffsBefore(pre, post, current, e + 1) ==
      if DeltaAt(post, e).Some? && Delta(post, e) != Opening(pre, current, e)
      then DiffsBefore(pre, post, current, e)[e := Delta(post, e) - Opening(pre, current, e)]
      else DiffsBefore(pre, post, current, e)
  {
    hide DeltaAt, Opening, Delta;
  }

  method CheckPower(params: PosParams, current: nat, v: Address, pre: Option<Timeline<int>>, post: Timeline<int>)
    returns (errors: seq<CheckError>, powers: map<(nat, Address), nat>, diffs: map<nat, int>)
    ensures errors == [] <==> PowerOk(params, post, current)
    ensures powers == PowerEntries(v, post, current, current + params.unbondingLen)
    ensures diffs == PowerDiffs(pre, post, current, current + params.unbondingLen)
  {
    hide PowerEntries, PowerDiffs, Opening, Delta, DeltaAt;
    errors, powers, diffs := LastUpdateErrors(post, current), map[], map[];
    var sum, end := 0, current + params.unbondingLen;
    for e := current to end + 1
      invariant e > current ==> sum == PostSum(post, current, e - 1)
      invariant e == current ==> sum == 0
      invariant powers == PowersBefore(v, post, current, e) && diffs == DiffsBefore(pre, post, current, e)
      invariant errors == [] <==>
        post.lastUpdate == current && forall x :: current <= x < e && DeltaAt(post, x).Some? ==>
          PostSum(post, current, x) >= 0
    {
      sum := sum + Delta(post, e);
      assert sum == PostSum(post, current, e);
      PowersNext(v, post, current, e);
      DiffsNext(pre, post, current, e);
      if DeltaAt(post, e).Some? {
        if Delta(post, e) != Opening(pre, current, e) {
          diffs := diffs[e := Delta(post, e) - Opening(pre, current, e)];
        }
        if sum >= 0 {
          powers := powers[(e, v) := sum];
        } else {
          errors := errors + [InvalidValidatorVotingPower(v, sum)];
        }
      }
    }
  }

  method CheckTotalPower(params: PosParams, pre: Timeline<int>, post: Timeline<int>) returns (diffs: map<nat, int>)
    ensures diffs == TotalPowerDiffs(pre, post, post.lastUpdate, post.lastUpdate + params.unbondingLen)
  {
    hide Opening, Delta;
    var start := post.lastUpdate;
    diffs := map[];
    for e := start to start + params.unbondingLen + 1
      invariant diffs == if e == start then map[] else TotalPowerDiffs(pre, post, start, e - 1)
    {
      ghost var before := diffs;
      if Delta(post, e) != Opening(Some(pre), start, e) {
        diffs := diffs[e := Delta(post, e) - Opening(Some(pre), start, e)];
      }
      assert diffs == TotalPowerDiffs(pre, post, start, e);
    }
  }

  /** The differences of one voting power are added to those expected so far. */
  method Expect(expected: map<nat, int>, diffs: map<nat, int>) returns (r: map<nat, int>)
    ensures r == AddDiffs(expected, diffs)
  {
    r := expected;
    var rest := diffs.Keys;
    while rest != {}
      invariant rest <= diffs.Keys && r.Keys == expected.Keys + (diffs.Keys - rest)
      invariant forall e :: e in r ==> r[e] == ValueAt(expected, e) + if e in rest then 0 else ValueAt(diffs, e)
      decreases rest
    {
      var e :| e in rest;
      r := r[e := ValueAt(r, e) + diffs[e]];
      rest := rest - {e};
    }
  }

  // ---------- bonds and unbonds ----------

  /** Applies a bond's slashes to an amount or to the lack of one. */
  method SlashBondDelta(slashes: seq<Slash>, start: nat, delta: int) returns (left: int)
    ensures left == BondWorth(slashes)(start, delta)
  {
    hide MulBpsSigned;
    left := delta;
    for i := 0 to |slashes|
      invariant AfterSignedSlashes(RatesFrom(slashes[i..], start), left) ==
        AfterSignedSlashes(RatesFrom(slashes, start), delta)
    {
      assert slashes[i..][0] == slashes[i] && slashes[i..][1..] == slashes[i + 1..];
      if slashes[i].epoch >= start {
        ghost var rest := RatesFrom(slashes[i + 1..], start);
        assert ([slashes[i].rate] + rest)[1..] == rest;
        left := left - MulBpsSigned(slashes[i].rate, left);
      } else {
        assert RatesFrom(slashes[i..], start) == RatesFrom(slashes[i + 1..], start);
      }
    }
  }

  method SlashUnbondDelta(slashes: seq<Slash>, key: (nat, nat), delta: int) returns (left: int)
    ensures left == UnbondWorth(slashes)(key, delta)
  {
    hide MulBpsSigned;
    left := delta;
    for i := 0 to |slashes|
      invariant AfterSignedSlashes(RatesWithin(slashes[i..], key.0, key.1), left) ==
        AfterSignedSlashes(RatesWithin(slashes, key.0, key.1), delta)
    {
      assert slashes[i..][0] == slashes[i] && slashes[i..][1..] == slashes[i + 1..];
      if key.0 <= slashes[i].epoch <= key.1 {
        ghost var rest := RatesWithin(slashes[i + 1..], key.0, key.1);
        assert ([slashes[i].rate] + rest)[1..] == rest;
        left := left - MulBpsSigned(slashes[i].rate, left);
      } else {
        assert RatesWithin(slashes[i..], key.0, key.1) == RatesWithin(slashes[i + 1..], key.0, key.1);
      }
    }
  }

  lemma ValuedSplit<K>(m: map<K, int>, worth: Worth<K>, k: K)
    requires k in m
    ensures SumOf(Valued(m, worth)) == worth(k, m[k]) + SumOf(Valued(m - {k}, worth))
  {
    SumSplit(Valued(m, worth), k);
    assert Valued(m, worth) - {k} == Valued(m - {k}, worth);
  }

  /** What the differences of a bond are worth, in any order of keys. */
  method ValueBond(m: map<nat, int>, slashes: seq<Slash>) returns (sum: int)
    ensures sum == SumOf(Valued(m, BondWorth(slashes)))
  {
    hide BondWorth, SumOf, Valued;
    sum := 0;
    var rest := m;
    NothingValued(BondWorth(slashes));
    while rest != map[]
      invariant sum + SumOf(Valued(rest, BondWorth(slashes))) == SumOf(Valued(m, BondWorth(slashes)))
      decreases |rest|
    {
      var k :| k in rest;
      ValuedSplit(rest, BondWorth(slashes), k);
      var left := SlashBondDelta(slashes, k, rest[k]);
      sum := sum + left;
      rest := rest - {k};
    }
  }

  method ValueUnbond(m: map<(nat, nat), int>, slashes: seq<Slash>) returns (sum: int)
    ensures sum == SumOf(Valued(m, UnbondWorth(slashes)))
  {
    hide UnbondWorth, SumOf, Valued;
    sum := 0;
    var rest := m;
    NothingValued(UnbondWorth(slashes));
    while rest != map[]
      invariant sum + SumOf(Valued(rest, UnbondWorth(slashes))) == SumOf(Valued(m, UnbondWorth(slashes)))
      decreases |rest|
    {
      var k :| k in rest;
      ValuedSplit(rest, UnbondWorth(slashes), k);
      var left := SlashUnbondDelta(slashes, k, rest[k]);
      sum := sum + left;
      rest := rest - {k};
    }
  }

  lemma NothingValued<K>(worth: Worth<K>)
    ensures SumOf(Valued(map[], worth)) == 0
  {
  }

  /** Enters the amounts before the change, negated, in any order of keys. */
  method Subtract<K>(d: map<K, int>, m: map<K, nat>) returns (r: map<K, int>)
    ensures r == d + Negated(m)
  {
    r := d;
    var rest := m.Keys;
    while rest != {}
      invariant rest <= m.Keys && r.Keys == d.Keys + (m.Keys - rest)
      invariant forall k :: k in r ==> r[k] == if k in m && k !in rest then 0 - m[k] as int else d[k]
      decreases rest
    {
      var k :| k in rest;
      r := r[k := 0 - m[k] as int];
      rest := rest - {k};
    }
  }

  /** Adds the amounts after the change, dropping what comes to nothing. */
  method AddOrDrop<K>(d: map<K, int>, m: map<K, nat>) returns (r: map<K, int>)
    ensures r == AddDropping(d, m)
  {
    r := d;
    var rest := m.Keys;
    while rest != {}
      invariant rest <= m.Keys
      invariant forall k :: k in r <==> if k in m && k !in rest then !(k in d && d[k] + m[k] == 0) else k in d
      invariant forall k :: k in r ==> r[k] == if k in m && k !in rest then ValueAt(d, k) + m[k] else d[k]
      decreases rest
    {
      var k :| k in rest;
      if k in r && r[k] + m[k] == 0 {
        r := r - {k};
      } else {
        r := r[k := ValueAt(r, k) + m[k]];
      }
      rest := rest - {k};
    }
  }

  /** The differences between two containers, epoch by epoch. */
  method DiffEntries<K(!new)>(pre: Timeline<map<K, nat>>, post: Timeline<map<K, nat>>, end: nat)
    returns (d: map<K, int>)
    requires pre.lastUpdate <= end
    ensures d == Differences(pre, post, end)
  {
    hide AddDropping, Negated, DeltaAt;
    d := map[];
    for e := pre.lastUpdate to end + 1
      invariant d == if e == pre.lastUpdate then map[] else Differences(pre, post, e - 1)
    {
      d := Subtract(d, Total(DeltaAt(pre, e)));
      d := AddOrDrop(d, Total(DeltaAt(post, e)));
    }
  }

  /** The errors in the amounts of one entry of an updated bond. */
  method CheckAmounts(id: BondId, ghost pre: Timeline<Bond>, seen: Bond, current: nat, pipeline: nat, epoch: nat,
                      m: Bond)
    returns (errors: seq<CheckError>)
    requires seen == Seen(pre, epoch)
    ensures errors == [] <==> forall k :: k in m ==> AmountAllowed(pre, current, pipeline, epoch, k, m[k])
  {
    hide Seen;
    errors := [];
    var rest := m.Keys;
    while rest != {}
      invariant rest <= m.Keys
      invariant errors == [] <==>
        forall k :: k in m && k !in rest ==> AmountAllowed(pre, current, pipeline, epoch, k, m[k])
      decreases rest
    {
      var k :| k in rest;
      if m[k] == 0 {
        errors := errors + [EmptyBond(id)];
      }
      if (epoch == current && k > current) || (epoch != current && k != epoch) {
        errors := errors + [InvalidBondStartEpoch(id, k)];
      }
      if epoch != pipeline && (k !in seen || m[k] > seen[k]) {
        errors := errors + [InvalidNewBondEpoch(id, epoch)];
      }
      rest := rest - {k};
    }
  }

  /** No amount of an updated bond before an epoch is an error. */
  ghost predicate AmountsAllowed(pre: Timeline<Bond>, post: Timeline<Bond>, current: nat, pipeline: nat, epoch: nat) {
    forall e, k :: pre.lastUpdate <= e < epoch && k in Total(DeltaAt(post, e)) ==>
      AmountAllowed(pre, current, pipeline, e, k, Total(DeltaAt(post, e))[k])
  }

  method CheckBondUpdate(params: PosParams, id: BondId, pre: Timeline<Bond>, post: Timeline<Bond>,
                         slashes: seq<Slash>, current: nat)
    returns (errors: seq<CheckError>, x: Option<int>)
    ensures errors == [] <==> BondUpdateOk(params, pre, post, current)
    ensures x == BondContribution(params, current, Data(Some(pre), Some(post)), slashes)
  {
    hide AddDropping, Negated, DeltaAt, AmountAllowed, BondWorth, Valued, SumOf;
    errors := LastUpdateErrors(post, current);
    if pre.lastUpdate > current {
      return errors, None;
    }
    var pipeline := current + params.pipelineLen;
    var seen: Bond, d: map<nat, int> := map[], map[];
    for e := pre.lastUpdate to pipeline + 1
      invariant seen == if e == pre.lastUpdate then map[] else Seen(pre, e - 1)
      invariant d == if e == pre.lastUpdate then map[] else Differences(pre, post, e - 1)
      invariant errors == [] <==> post.lastUpdate == current && AmountsAllowed(pre, post, current, pipeline, e)
    {
      d := Subtract(d, Total(DeltaAt(pre, e)));
      seen := seen + Total(DeltaAt(pre, e));
      var found := CheckAmounts(id, pre, seen, current, pipeline, e, Total(DeltaAt(post, e)));
      d := AddOrDrop(d, Total(DeltaAt(post, e)));
      errors := errors + found;
    }
    var total := ValueBond(d, slashes);
    x := NonZero(total);
  }

  /** What the entries of a bond are worth, epoch by epoch. */
  method TotalBond(t: Timeline<Bond>, slashes: seq<Slash>, start: nat, off: nat) returns (total: int)
    ensures total == WorthThrough(t, BondWorth(slashes), start, start + off)
  {
    hide DeltaAt, BondWorth, Valued, SumOf;
    total := 0;
    for e := start to start + off + 1
      invariant total == if e == start then 0 else WorthThrough(t, BondWorth(slashes), start, e - 1)
    {
      var here := ValueBond(Total(DeltaAt(t, e)), slashes);
      total := total + here;
    }
  }

  method TotalUnbond(t: Timeline<Unbond>, slashes: seq<Slash>, start: nat, off: nat) returns (total: int)
    ensures total == WorthThrough(t, UnbondWorth(slashes), start, start + off)
  {
    hide DeltaAt, UnbondWorth, Valued, SumOf;
    total := 0;
    for e := start to start + off + 1
      invariant total == if e == start then 0 else WorthThrough(t, UnbondWorth(slashes), start, e - 1)
    {
      var here := ValueUnbond(Total(DeltaAt(t, e)), slashes);
      total := total + here;
    }
  }

  /** The starts of one entry of a new bond. */
  method CheckStarts(id: BondId, m: Bond, epoch: nat) returns (errors: seq<CheckError>)
    ensures errors == [] <==> forall k :: k in m ==> k == epoch
  {
    errors := [];
    var rest := m.Keys;
    while rest != {}
      invariant rest <= m.Keys
      invariant errors == [] <==> forall k :: k in m && k !in rest ==> k == epoch
      decreases rest
    {
      var k :| k in rest;
      if k != epoch {
        errors := errors + [InvalidBondStartEpoch(id, k)];
      }
      rest := rest - {k};
    }
  }

  method CheckBondInit(params: PosParams, id: BondId, post: Timeline<Bond>, slashes: seq<Slash>, current: nat)
    returns (errors: seq<CheckError>, total: int)
    ensures errors == [] <==> BondInitOk(params, post, current) && total != 0
    ensures total == WorthThrough(post, BondWorth(slashes), current, current + params.pipelineLen)
  {
    hide DeltaAt, BondWorth, WorthThrough;
    errors := LastUpdateErrors(post, current);
    var pipeline := current + params.pipelineLen;
    for e := current to pipeline + 1
      invariant errors == [] <==>
        && post.lastUpdate == current
        && forall x :: current <= x < e && DeltaAt(post, x).Some? ==>
          x == pipeline && forall k :: k in Total(DeltaAt(post, x)) ==> k == x
    {
      if DeltaAt(post, e).Some? {
        if e != pipeline {
          errors := errors + [EpochedDataWrongEpoch(e)];
        }
        var found := CheckStarts(id, Total(DeltaAt(post, e)), e);
        errors := errors + found;
      }
    }
    total := TotalBond(post, slashes, current, params.pipelineLen);
    if total == 0 {
      errors := errors + [EmptyBond(id)];
    }
  }

  method CheckBond(params: PosParams, id: BondId, data: Data<Timeline<Bond>>, slashes: seq<Slash>, current: nat)
    returns (errors: seq<CheckError>, x: Option<int>)
    ensures errors == [] <==> BondDataOk(params, current, data, slashes)
    ensures x == BondContribution(params, current, data, slashes)
  {
    hide BondUpdateOk, BondInitOk, BondWorth, WorthThrough, Differences, Valued, SumOf;
    errors, x := [], None;
    if data.pre.Some? && data.post.Some? {
      errors, x := CheckBondUpdate(params, id, data.pre.value, data.post.value, slashes, current);
    } else if data.post.Some? {
      var total;
      errors, total := CheckBondInit(params, id, data.post.value, slashes, current);
      x := Some(total);
    } else if data.pre.Some? {
      var total := TotalBond(data.pre.value, slashes, data.pre.value.lastUpdate, params.pipelineLen);
      x := Some(-total);
    }
  }

  method CheckUnbond(params: PosParams, data: Data<Timeline<Unbond>>, slashes: seq<Slash>, current: nat)
    returns (errors: seq<CheckError>, x: Option<int>)
    ensures errors == [] <==> (data.post.Some? ==> data.post.value.lastUpdate == current)
    ensures x == UnbondContribution(params, current, data, slashes)
  {
    hide UnbondWorth, WorthThrough, Differences, Valued, SumOf;
    errors := if data.post.Some? then LastUpdateErrors(data.post.value, current) else [];
    x := None;
    if data.pre.Some? && data.post.Some? {
      if data.pre.value.lastUpdate <= current {
        var d := DiffEntries(data.pre.value, data.post.value, current + params.unbondingLen);
        var total := ValueUnbond(d, slashes);
        x := NonZero(total);
      }
    } else if data.post.Some? {
      var total := TotalUnbond(data.post.value, slashes, data.post.value.lastUpdate, params.unbondingLen);
      x := Some(total);
    } else if data.pre.Some? {
      var total := TotalUnbond(data.pre.value, slashes, data.pre.value.lastUpdate, params.unbondingLen);
      x := Some(-total);
    }
  }

  // ---------- the checks across changes ----------

  /** Total deltas against bonds and unbonds. */
  method CheckTokens(totals: map<Address, int>, bonds: map<Address, int>, unbonds: map<Address, int>, ghost f: Findings)
    returns (errors: seq<CheckError>)
    requires f.totals == totals && f.bonds == bonds && f.unbonds == unbonds
    ensures errors == [] <==> TotalsMatchBonds(f)
  {
    errors := [];
    var rest := totals.Keys;
    while rest != {}
      invariant rest <= totals.Keys
      invariant errors == [] <==> forall v :: v in totals && v !in rest ==> totals[v] == ValueAt(bonds, v)
      decreases rest
    {
      var v :| v in rest;
      if totals[v] != ValueAt(bonds, v) {
        errors := errors + [InvalidTotalDeltasSum(v)];
      }
      rest := rest - {v};
    }
    ghost var first := errors == [];
    rest := bonds.Keys;
    while rest != {}
      invariant rest <= bonds.Keys
      invariant errors == [] <==> first && forall v :: v in bonds && v !in rest ==> v in totals
      decreases rest
    {
      var v :| v in rest;
      if v !in totals {
        errors := errors + [MissingValidatorTotalDeltas(v)];
      }
      rest := rest - {v};
    }
    ghost var second := errors == [];
    rest := unbonds.Keys;
    while rest != {}
      invariant rest <= unbonds.Keys
      invariant errors == [] <==> second && forall v :: v in unbonds && v !in rest && unbonds[v] > 0 ==> v in totals
      decreases rest
    {
      var v :| v in rest;
      if unbonds[v] > 0 && v !in totals {
        errors := errors + [MissingValidatorTotalDeltas(v)];
      }
      rest := rest - {v};
    }
  }

  /** Looks for the latest changed stake at or before an epoch. */
  method SearchStake(f: Findings, v: Address, current: nat, epoch: nat) returns (x: Option<nat>)
    ensures x == LatestStake(f, v, current, epoch)
  {
    var search: nat := epoch;
    while (search, v) !in f.stakes && search > current
      invariant search <= epoch && LatestStake(f, v, current, search) == LatestStake(f, v, current, epoch)
      decreases search
    {
      search := search - 1;
    }
    x := if (search, v) in f.stakes then Some(f.stakes[(search, v)].1) else None;
  }

  method CheckWeight(params: PosParams, f: Findings, before: ValidatorSet, w: Weighted, current: nat, epoch: nat)
    returns (errors: seq<CheckError>)
    ensures errors == [] <==> WeightOk(params, f, before, w, current, epoch)
  {
    hide LatestStake, VotingPower;
    errors := [];
    if (epoch, w.address) in f.stakes {
      if w.power != VotingPower(params, f.stakes[(epoch, w.address)].1) {
        errors := [InvalidValidatorWeight(w)];
      }
    } else if w !in before.active && w !in before.inactive && w.address !in f.newcomers {
      var valid := false;
      if epoch > current {
        var x := SearchStake(f, w.address, current, epoch - 1);
        valid := x.Some? && w.power == VotingPower(params, x.value);
      }
      if !valid {
        errors := [InvalidValidatorWeight(w)];
      }
    }
  }

  /** The weights of some validators of an updated set. */
  method CheckWeights(params: PosParams, f: Findings, before: ValidatorSet, ws: set<Weighted>, current: nat, epoch: nat)
    returns (errors: seq<CheckError>)
    ensures errors == [] <==> forall w :: w in ws ==> WeightOk(params, f, before, w, current, epoch)
  {
    hide WeightOk;
    errors := [];
    var rest := ws;
    while rest != {}
      invariant rest <= ws
      invariant errors == [] <==> forall w :: w in ws && w !in rest ==> WeightOk(params, f, before, w, current, epoch)
      decreases rest
    {
      var w := First(rest);
      var found := CheckWeight(params, f, before, w, current, epoch);
      errors := errors + found;
      rest := rest - {w};
    }
  }

  method CheckSetEntry(params: PosParams, f: Findings, before: Option<ValidatorSet>, vs: ValidatorSet, current: nat,
                       epoch: nat)
    returns (errors: seq<CheckError>)
    ensures errors == [] <==> SetEntryOk(params, f, before, vs, current, epoch)
  {
    hide WeightOk;
    errors := [];
    if |vs.active| > params.maxValidatorSlots {
      errors := errors + [TooManyActiveValidators];
    }
    if vs.inactive != {} && vs.active != {} && Last(vs.inactive).power > First(vs.active).power {
      errors := errors + [ValidatorSetOutOfOrder];
    }
    if before.None? {
      errors := errors + [MissingValidatorSet];
    } else {
      var active := CheckWeights(params, f, before.value, vs.active, current, epoch);
      var inactive := CheckWeights(params, f, before.value, vs.inactive, current, epoch);
      errors := errors + active + inactive;
    }
  }

  /** Changed stakes must already be in a set that has no entry of its own. */
  method CheckStakesInSet(params: PosParams, f: Findings, vs: ValidatorSet, epoch: nat)
    returns (errors: seq<CheckError>)
    ensures errors == [] <==> StakesInSet(params, f, vs, epoch)
  {
    hide VotingPower;
    errors := [];
    var rest := f.stakes.Keys;
    while rest != {}
      invariant rest <= f.stakes.Keys
      invariant errors == [] <==> forall k :: k in f.stakes && k !in rest && k.0 == epoch ==> InOneSet(params, f, vs, k)
      decreases rest
    {
      var k :| k in rest;
      if k.0 == epoch {
        var w := Weighted(VotingPower(params, f.stakes[k].1), k.1);
        if w !in vs.active {
          if w !in vs.inactive {
            errors := errors + [WeightedValidatorNotFound(w, epoch)];
          }
        } else if w in vs.inactive {
          errors := errors + [ValidatorSetDuplicate(w, epoch)];
        }
      }
      rest := rest - {k};
    }
  }

  method CheckSetAt(params: PosParams, f: Findings, pre: Timeline<ValidatorSet>, post: Timeline<ValidatorSet>,
                    current: nat, epoch: nat)
    returns (errors: seq<CheckError>)
    ensures errors == [] <==> SetAtOk(params, f, pre, post, current, epoch)
  {
    hide SetEntryOk, StakesInSet, T.Get, AnyStake, EntryAt;
    errors := [];
    var entry := EntryAt(post, epoch);
    if entry.Some? {
      errors := CheckSetEntry(params, f, T.Get(Later, pre, epoch), entry.value, current, epoch);
    } else if AnyStake(f, epoch) {
      var vs := T.Get(Later, post, epoch);
      if vs.None? {
        errors := [MissingValidatorSet];
      } else {
        errors := CheckStakesInSet(params, f, vs.value, epoch);
      }
    }
  }

  method CheckSets(params: PosParams, f: Findings, current: nat) returns (errors: seq<CheckError>)
    ensures errors == [] <==> SetsChecked(params, f, current)
  {
    hide SetAtOk;
    errors := [];
    if f.sets.None? {
      if f.powers != map[] {
        errors := [ValidatorSetNotUpdated];
      }
      return;
    }
    var pre, post := f.sets.value.0, f.sets.value.1;
    for e := current to current + params.unbondingLen + 1
      invariant errors == [] <==> forall x :: current <= x < e ==> SetAtOk(params, f, pre, post, current, x)
    {
      var found := CheckSetAt(params, f, pre, post, current, e);
      errors := errors + found;
    }
  }

  method SearchEpoch(f: Findings, current: nat, epoch: nat) returns (x: Option<nat>)
    ensures x == LatestEpoch(f, current, epoch)
  {
    hide AnyStake;
    var search: nat := epoch;
    while !AnyStake(f, search) && search > current
      invariant search <= epoch && LatestEpoch(f, current, search) == LatestEpoch(f, current, epoch)
      decreases search
    {
      search := search - 1;
    }
    x := if AnyStake(f, search) then Some(search) else None;
  }

  /** Changed voting powers against changed stakes, in any order. */
  method CheckPowers(params: PosParams, f: Findings, current: nat) returns (errors: seq<CheckError>)
    ensures errors == [] <==> PowersMatchStakes(params, f, current)
  {
    hide LatestEpoch, VotingPower;
    errors := [];
    var rest := f.powers.Keys;
    while rest != {}
      invariant rest <= f.powers.Keys
      invariant errors == [] <==> forall k :: k in f.powers && k !in rest ==> PowerMatches(params, f, current, k)
      decreases rest
    {
      var k :| k in rest;
      var x := SearchEpoch(f, current, k.0);
      if x.None? || (x.value, k.1) !in f.stakes || f.powers[k] != VotingPower(params, f.stakes[(x.value, k.1)].1) {
        errors := errors + [InvalidVotingPowerChanges];
      }
      rest := rest - {k};
    }
  }

  method Epochs(f: Findings) returns (epochs: set<nat>)
    ensures forall e :: e in epochs <==> AnyStake(f, e)
  {
    epochs := set k | k in f.stakes :: k.0;
  }

  /** The changed stakes of one epoch against the voting powers. */
  method CheckStakesAt(params: PosParams, f: Findings, epoch: nat, previous: Option<nat>)
    returns (errors: seq<CheckError>)
    ensures errors == [] <==> ShowAt(params, f, epoch, previous)
  {
    hide VotingPower;
    errors := [];
    var rest := f.stakes.Keys;
    while rest != {}
      invariant rest <= f.stakes.Keys
      invariant errors == [] <==>
        forall k :: k in f.stakes && k !in rest && k.0 == epoch ==> StakeShows(params, f, k, previous)
      decreases rest
    {
      var k :| k in rest;
      if k.0 == epoch {
        var before, after := VotingPower(params, f.stakes[k].0), VotingPower(params, f.stakes[k].1);
        if k in f.powers {
          if f.powers[k] != after {
            errors := errors + [InvalidVotingPowerChange(k.1, epoch)];
          }
        } else if before != after
          && !(previous.Some? && (previous.value, k.1) in f.powers && f.powers[(previous.value, k.1)] == after) {
          errors := errors + [InvalidVotingPowerChange(k.1, epoch)];
        }
      }
      rest := rest - {k};
    }
  }

  /** The changed stakes against the voting powers, the epochs in any order. */
  method CheckStakes(params: PosParams, f: Findings) returns (errors: seq<CheckError>, order: seq<nat>)
    ensures VisitOrder(f, order)
    ensures errors == [] <==> StakesMatchPowers(params, f, order)
  {
    hide AnyStake, StakesMatchPowers;
    errors, order := [], [];
    NoneVisited(params, f);
    var epochs := Epochs(f);
    var rest := epochs;
    var previous: Option<nat> := None;
    while rest != {}
      invariant rest <= epochs
      invariant forall e :: e in order <==> e in epochs - rest
      invariant forall i, j :: 0 <= i < j < |order| ==> order[i] != order[j]
      invariant previous == Previous(order, |order|)
      invariant errors == [] <==> StakesMatchPowers(params, f, order)
      decreases rest
    {
      var e :| e in rest;
      var found := CheckStakesAt(params, f, e, previous);
      VisitNext(params, f, order, e);
      errors := errors + found;
      Extends(order, e);
      rest := rest - {e};
      order := order + [e];
      previous := Some(e);
    }
  }

  lemma Extends(order: seq<nat>, e: nat)
    requires e !in order && forall i, j :: 0 <= i < j < |order| ==> order[i] != order[j]
    ensures var next := order + [e];
      forall i, j :: 0 <= i < j < |next| ==> next[i] != next[j]
  {
    var next := order + [e];
    forall i, j | 0 <= i < j < |next| ensures next[i] != next[j] {
      assert order[i] in order;
    }
  }

  lemma NoneVisited(params: PosParams, f: Findings)
    ensures StakesMatchPowers(params, f, [])
  {
  }

  lemma VisitNext(params: PosParams, f: Findings, order: seq<nat>, e: nat)
    ensures StakesMatchPowers(params, f, order + [e]) <==>
      StakesMatchPowers(params, f, order) && ShowAt(params, f, e, Previous(order, |order|))
  {
    hide ShowAt;
    var next := order + [e];
    assert next[|order|] == e && Previous(next, |order|) == Previous(order, |order|);
    forall i | 0 <= i < |order| ensures next[i] == order[i] && Previous(next, i) == Previous(order, i) {
    }
    if StakesMatchPowers(params, f, next) {
      assert ShowAt(params, f, next[|order|], Previous(next, |order|));
      forall i | 0 <= i < |order| ensures ShowAt(params, f, order[i], Previous(order, i)) {
        assert ShowAt(params, f, next[i], Previous(next, i));
      }
    }
  }

  method CheckTotalPowers(f: Findings) returns (errors: seq<CheckError>)
    ensures errors == [] <==> TotalPowerChecked(f)
  {
    errors := [];
    var rest := f.expected.Keys;
    while rest != {}
      invariant rest <= f.expected.Keys
      invariant errors == [] <==>
        forall e :: e in f.expected && e !in rest ==> f.expected[e] == ValueAt(f.totalPower, e)
      decreases rest
    {
      var e :| e in rest;
      if f.expected[e] != ValueAt(f.totalPower, e) {
        errors := errors + [InvalidTotalVotingPowerChange(e)];
      }
      rest := rest - {e};
    }
  }

  /** The sum of the contributions, in any order of validators. */
  method SumValues(m: map<Address, int>) returns (sum: int)
    ensures sum == SumOf(m)
  {
    sum := 0;
    var rest := m;
    while rest != map[]
      invariant sum + SumOf(rest) == SumOf(m)
      decreases |rest|
    {
      var k :| k in rest;
      SumSplit(rest, k);
      sum := sum + rest[k];
      rest := rest - {k};
    }
  }

  // ---------- one change ----------

  /** What a change of each kind adds to the findings. */
  lemma BalanceFound(params: PosParams, current: nat, f: Findings, data: Data<nat>)
    ensures Step(params, current, f, BalanceChange(data)) ==
      f.(ok := f.ok && OkOf(params, current, BalanceChange(data)),
        balance := BalanceAfter(f.balance, BalanceChange(data)))
  {
  }

  lemma BondFound(params: PosParams, current: nat, f: Findings, id: BondId, data: Data<Timeline<Bond>>,
                  slashes: seq<Slash>)
    ensures Step(params, current, f, BondChange(id, data, slashes)) ==
      f.(ok := f.ok && BondDataOk(params, current, data, slashes),
         bonds := Credit(f.bonds, id.validator, BondContribution(params, current, data, slashes)))
  {
    hide BondDataOk, BondContribution, Credit;
  }

  lemma UnbondFound(params: PosParams, current: nat, f: Findings, id: BondId, data: Data<Timeline<Unbond>>,
                    slashes: seq<Slash>)
    ensures Step(params, current, f, UnbondChange(id, data, slashes)) ==
      f.(ok := f.ok && (data.post.Some? ==> data.post.value.lastUpdate == current),
         unbonds := Credit(f.unbonds, id.validator, UnbondContribution(params, current, data, slashes)))
  {
    hide UnbondContribution, Credit;
  }

  function MaybeNew(vs: set<Address>, v: Address, isNew: bool): set<Address> {
    if isNew then vs + {v} else vs
  }

  lemma TotalFound(params: PosParams, current: nat, f: Findings, v: Address, data: Data<Timeline<int>>)
    requires data.post.Some?
    ensures var end := current + params.unbondingLen;
      Step(params, current, f, TotalDeltasChange(v, data)) ==
        f.(ok := f.ok && OkOf(params, current, TotalDeltasChange(v, data)),
           stakes := f.stakes + StakeEntries(v, data.pre, data.post.value, current, end),
           totals := Credit(f.totals, v,
             NonZero(PostSum(data.post.value, current, end) - PreSum(data.pre, current, end))),
           newcomers := MaybeNew(f.newcomers, v, data.pre.None?))
  {
    hide OkOf, StakeEntries, PreSum, PostSum, Credit, NonZero;
  }

  lemma PowerFound(params: PosParams, current: nat, f: Findings, v: Address, data: Data<Timeline<int>>)
    requires data.post.Some?
    ensures var end := current + params.unbondingLen;
      Step(params, current, f, VotingPowerChange(v, data)) ==
        f.(ok := f.ok && OkOf(params, current, VotingPowerChange(v, data)),
           powers := f.powers + PowerEntries(v, data.post.value, current, end),
           expected := AddDiffs(f.expected, PowerDiffs(data.pre, data.post.value, current, end)),
           newcomers := MaybeNew(f.newcomers, v, data.pre.None?))
  {
    hide OkOf, PowerEntries, PowerDiffs, AddDiffs;
  }

  lemma NothingFound(params: PosParams, current: nat, f: Findings, change: Change)
    requires (change.TotalDeltasChange? && change.total.post.None?)
      || (change.VotingPowerChange? && change.power.post.None?)
    ensures Step(params, current, f, change) == f.(ok := f.ok && OkOf(params, current, change))
  {
    hide OkOf;
  }

  method AddTotal(params: PosParams, current: nat, f: Findings, v: Address, data: Data<Timeline<int>>)
    returns (errors: seq<CheckError>, g: Findings)
    ensures g == Step(params, current, f, TotalDeltasChange(v, data)).(ok := g.ok)
    ensures g.ok == f.ok && (errors == [] <==> OkOf(params, current, TotalDeltasChange(v, data)))
  {
    hide TotalOk, StakeEntries, PreSum, PostSum, Credit, NonZero, Step, MaybeNew;
    errors, g := [], f;
    if data.post.Some? {
      var stakes, delta;
      errors, stakes, delta := CheckTotal(params, current, v, data.pre, data.post.value);
      TotalFound(params, current, f, v, data);
      g := f.(stakes := f.stakes + stakes, totals := Credit(f.totals, v, NonZero(delta)),
        newcomers := MaybeNew(f.newcomers, v, data.pre.None?));
    } else {
      NothingFound(params, current, f, TotalDeltasChange(v, data));
      if data.pre.Some? {
        errors := [MissingValidatorTotalDeltas(v)];
      }
    }
  }

  method AddPower(params: PosParams, current: nat, f: Findings, v: Address, data: Data<Timeline<int>>)
    returns (errors: seq<CheckError>, g: Findings)
    ensures g == Step(params, current, f, VotingPowerChange(v, data)).(ok := g.ok)
    ensures g.ok == f.ok && (errors == [] <==> OkOf(params, current, VotingPowerChange(v, data)))
  {
    hide PowerOk, PowerEntries, PowerDiffs, AddDiffs, Step, MaybeNew;
    errors, g := [], f;
    if data.post.Some? {
      var powers, diffs;
      errors, powers, diffs := CheckPower(params, current, v, data.pre, data.post.value);
      var expected := Expect(f.expected, diffs);
      PowerFound(params, current, f, v, data);
      g := f.(powers := f.powers + powers, expected := expected, newcomers := MaybeNew(f.newcomers, v, data.pre.None?));
    } else {
      NothingFound(params, current, f, VotingPowerChange(v, data));
      if data.pre.Some? {
        errors := [MissingValidatorVotingPower(v)];
      }
    }
  }

  method AddSets(params: PosParams, current: nat, f: Findings, data: Data<Timeline<ValidatorSet>>)
    returns (errors: seq<CheckError>, g: Findings)
    ensures g == Step(params, current, f, ValidatorSetChange(data)).(ok := g.ok)
    ensures g.ok == f.ok && (errors == [] <==> OkOf(params, current, ValidatorSetChange(data)))
  {
    errors, g := [MissingValidatorSet], f;
    if data.pre.Some? && data.post.Some? {
      errors := LastUpdateErrors(data.post.value, current);
      g := f.(sets := Some((data.pre.value, data.post.value)));
    }
  }

  method AddTotalPower(params: PosParams, current: nat, f: Findings, data: Data<Timeline<int>>)
    returns (errors: seq<CheckError>, g: Findings)
    ensures g == Step(params, current, f, TotalPowerChange(data)).(ok := g.ok)
    ensures g.ok == f.ok && (errors == [] <==> OkOf(params, current, TotalPowerChange(data)))
  {
    hide TotalPowerDiffs;
    errors, g := [MissingTotalVotingPower], f;
    if data.pre.Some? && data.post.Some? {
      errors := LastUpdateErrors(data.post.value, current);
      var diffs := CheckTotalPower(params, data.pre.value, data.post.value);
      g := f.(totalPower := f.totalPower + diffs);
    }
  }

  method CheckChange(params: PosParams, current: nat, f: Findings, change: Change)
    returns (errors: seq<CheckError>, g: Findings)
    ensures g == Step(params, current, f, change).(ok := g.ok)
    ensures g.ok == f.ok && (errors == [] <==> OkOf(params, current, change))
  {
    hide Step, BondDataOk, BondContribution, UnbondContribution, Credit, TotalOk, PowerOk;
    match change
    case BalanceChange(data) =>
      BalanceFound(params, current, f, data);
      g := f.(balance := BalanceAfter(f.balance, change));
      errors := if data.pre.Some? && data.post.None? then [MissingBalance] else [];
    case BondChange(id, data, slashes) =>
      BondFound(params, current, f, id, data, slashes);
      var x;
      errors, x := CheckBond(params, id, data, slashes, current);
      g := f.(bonds := Credit(f.bonds, id.validator, x));
    case UnbondChange(id, data, slashes) =>
      UnbondFound(params, current, f, id, data, slashes);
      var x;
      errors, x := CheckUnbond(params, data, slashes, current);
      g := f.(unbonds := Credit(f.unbonds, id.validator, x));
    case TotalDeltasChange(v, data) =>
      errors, g := AddTotal(params, current, f, v, data);
    case VotingPowerChange(v, data) =>
      errors, g := AddPower(params, current, f, v, data);
    case ValidatorSetChange(data) =>
      errors, g := AddSets(params, current, f, data);
    case TotalPowerChange(data) =>
      errors, g := AddTotalPower(params, current, f, data);
  }

  // ---------- all changes ----------

  method Gather(params: PosParams, current: nat, changes: seq<Change>) returns (errors: seq<CheckError>, f: Findings)
    ensures f == Collect(params, current, changes) && (errors == [] <==> f.ok)
  {
    hide Step, OkOf;
    errors, f := [], NOTHING;
    for i := 0 to |changes|
      invariant f.ok && f == Collect(params, current, changes[..i]).(ok := true)
      invariant errors == [] <==> Collect(params, current, changes[..i]).ok
    {
      assert changes[..i + 1][..i] == changes[..i];
      StepIgnoresOk(params, current, Collect(params, current, changes[..i]), changes[i]);
      var found;
      found, f := CheckChange(params, current, f, changes[i]);
      errors := errors + found;
    }
    assert changes[..|changes|] == changes;
    f := f.(ok := errors == []);
  }

  lemma StepIgnoresOk(params: PosParams, current: nat, f: Findings, change: Change)
    ensures Step(params, current, f.(ok := true), change) ==
      Step(params, current, f, change).(ok := OkOf(params, current, change))
    ensures Step(params, current, f, change).ok == (f.ok && OkOf(params, current, change))
  {
    hide OkOf, BondsAfter, UnbondsAfter, TotalsAfter, StakesAfter, ExpectedAfter, PowersAfter, SetsAfter,
      TotalPowerAfter, NewcomersAfter, BalanceAfter;
  }

  method CheckNewcomers(f: Findings) returns (errors: seq<CheckError>)
    ensures errors == [] <==> f.newcomers == {}
  {
    errors := [];
    var rest := f.newcomers;
    while rest != {}
      invariant rest <= f.newcomers
      invariant errors == [] <==> rest == f.newcomers
      decreases rest
    {
      var v :| v in rest;
      errors := errors + [InvalidNewValidator(v)];
      rest := rest - {v};
    }
  }

  method CheckBalance(f: Findings) returns (errors: seq<CheckError>)
    ensures errors == [] <==> f.balance == SumOf(f.bonds) + SumOf(f.unbonds)
  {
    hide SumOf;
    var bonded := SumValues(f.bonds);
    var unbonded := SumValues(f.unbonds);
    errors := if f.balance != bonded + unbonded then [InvalidBalances] else [];
  }

  /** The whole check, with the order in which the hash map's epochs were visited. */
  method Validate(params: PosParams, changes: seq<Change>, current: nat)
    returns (errors: seq<CheckError>, order: seq<nat>)
    ensures VisitOrder(Collect(params, current, changes), order)
    ensures errors == [] <==> Accepts(params, changes, current, order)
  {
    hide TotalsMatchBonds, SetsChecked, PowersMatchStakes, StakesMatchPowers, TotalPowerChecked, SumOf, Collect,
      VisitOrder;
    var f;
    errors, f := Gather(params, current, changes);
    var tokens := CheckTokens(f.totals, f.bonds, f.unbonds, f);
    var sets := CheckSets(params, f, current);
    var powers := CheckPowers(params, f, current);
    var stakes;
    stakes, order := CheckStakes(params, f);
    var totalPowers := CheckTotalPowers(f);
    var newcomers := CheckNewcomers(f);
    var balances := CheckBalance(f);
    errors := errors + tokens + sets + powers + stakes + totalPowers + newcomers + balances;
  }
}

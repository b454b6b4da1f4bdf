/**
 The views of a staking state at an epoch (stake, voting power, validator sets)
 and how a change of stake shows in each of them.
 */
module StakeViews {
  import opened Options
  import opened Timelines
  import opened Sums
  import opened Params
  import opened ValidatorSets
  import opened Ledger

  lemma AddIntsLaws()
    ensures Associative(AddInts) && Commutative(AddInts)
  {
  }

  lemma LaterLaws<T(!new)>()
    ensures Associative(Later<T>)
  {
  }

  /** A delta added at one epoch shifts exactly the epochs from there on. */
  lemma AddAtInt(t: Timeline<int>, delta: int, current: nat, i: nat, off: nat, epoch: nat)
    requires Fits(t, off) && i <= off && t.lastUpdate <= current <= epoch
    ensures At(AddAt(AddInts, t, delta, current, i, off), epoch) == At(t, epoch) + if epoch < current + i then 0
      else delta
  {
    AddIntsLaws();
    AddAtGet(AddInts, t, delta, current, i, off, epoch);
  }

  lemma InitAtInt(delta: int, current: nat, i: nat, epoch: nat)
    requires current <= epoch
    ensures At(InitAt(delta, current, i), epoch) == if epoch < current + i then 0 else delta
  {
    InitAtGet(AddInts, delta, current, i, epoch);
  }

  /** Past its window a container does not change any more. */
  lemma {:induction false} PastWindow<T>(add: (T, T) -> T, t: Timeline<T>, off: nat, lo: nat, hi: nat)
    requires Fits(t, off) && t.lastUpdate + off <= lo <= hi
    ensures Get(add, t, lo) == Get(add, t, hi)
  {
    GetConstant(add, t, lo, hi);
  }

  lemma AddAtShape<T>(add: (T, T) -> T, t: Timeline<T>, value: T, current: nat, i: nat, off: nat)
    requires Fits(t, off) && i <= off
    ensures var r := AddAt(add, t, value, current, i, off);
      Fits(r, off) && r.lastUpdate == current
  {
    AddAtDelta(add, t, value, current, i, off, 0);
  }

  // ---------- voting powers ----------

  ghost predicate PowersReady(params: PosParams, power: Timeline<int>, totalPower: Timeline<int>, current: nat) {
    && Fits(power, params.unbondingLen) && power.lastUpdate <= current
    && Fits(totalPower, params.unbondingLen) && totalPower.lastUpdate <= current
  }

  lemma UpdatePowersStep(params: PosParams, total: Timeline<int>, power: Timeline<int>, totalPower: Timeline<int>,
                         current: nat, x: nat)
    returns (p: Timeline<int>, t: Timeline<int>)
    requires current <= x <= current + params.unbondingLen && PowersReady(params, power, totalPower, current)
    requires UpdatePowers(params, total, power, totalPower, current, x).Ok?
    ensures UpdatePowers(params, total, power, totalPower, current, x) ==
      UpdatePowers(params, total, p, t, current, x + 1)
    ensures PowersReady(params, p, t, current) && p.lastUpdate == t.lastUpdate == current
    ensures FitsU64(At(total, x)) && At(p, x) == VotingPower(params, At(total, x))
    ensures forall e :: current <= e ==>
      At(p, e) - At(power, e) == At(t, e) - At(totalPower, e) == if e < x then 0 else At(p, x) - At(power, x)
  {
    hide AddAt, Get;
    var off := params.unbondingLen;
    var delta := TryVotingPowerDelta(params, At(total, x)).value - At(power, x);
    p := AddAt(AddInts, power, delta, current, x - current, off);
    t := AddAt(AddInts, totalPower, delta, current, x - current, off);
    AddAtShape(AddInts, power, delta, current, x - current, off);
    AddAtShape(AddInts, totalPower, delta, current, x - current, off);
    forall e | current <= e
      ensures At(p, e) == At(power, e) + if e < x then 0 else delta
      ensures At(t, e) == At(totalPower, e) + if e < x then 0 else delta
    {
      AddAtInt(power, delta, current, x - current, off, e);
      AddAtInt(totalPower, delta, current, x - current, off, e);
    }
  }

  /** After the update the voting power at every epoch of the window from `x` on
      is that of the stake, before `x` it is what it was, and the total has moved
      by what the validator's own power has. */
  lemma {:induction false} UpdatePowersEffect(params: PosParams, total: Timeline<int>, power: Timeline<int>,
                                              totalPower: Timeline<int>, current: nat, x: nat, p: Timeline<int>,
                                              t: Timeline<int>)
    requires current <= x && PowersReady(params, power, totalPower, current)
    requires UpdatePowers(params, total, power, totalPower, current, x) == Ok((p, t))
    ensures PowersReady(params, p, t, current)
    ensures x <= current + params.unbondingLen ==> p.lastUpdate == t.lastUpdate == current
    ensures forall e :: current <= e < x ==> At(p, e) == At(power, e)
    ensures forall e :: x <= e <= current + params.unbondingLen ==>
      FitsU64(At(total, e)) && At(p, e) == VotingPower(params, At(total, e))
    ensures forall e :: current <= e ==> At(t, e) - At(totalPower, e) == At(p, e) - At(power, e)
    decreases current + params.unbondingLen + 1 - x
  {
    hide AddAt, Get, VotingPower;
    if x <= current + params.unbondingLen {
      var p1, t1 := UpdatePowersStep(params, total, power, totalPower, current, x);
      UpdatePowersEffect(params, total, p1, t1, current, x + 1, p, t);
    }
  }
}

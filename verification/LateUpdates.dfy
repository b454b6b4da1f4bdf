/**
 The updates for the consensus engine when they are computed only after the first
 transitions of the new epoch: bringing the validator sets forward has then lost
 the previous epoch's set.
 */
module LateUpdates {
  import opened Options
  import opened Timelines
  import opened Params
  import opened ValidatorSets
  import opened Ledger
  import opened StakeViews
  import opened CoreInvariant
  import opened CoreSteps
  import opened BondInvariant
  import opened Solvency
  import opened Consensus
  import opened Runs
  import opened RunTheorems

  /** Once the validator sets were updated in the current epoch, the previous set
      reads as the current one, and nothing is sent. */
  lemma NothingSent(s: Pos)
    requires Windows(s) && s.epoch > 0 && s.sets.lastUpdate == s.epoch
    ensures ActiveUpdates(s, s.epoch) + Deactivations(s, s.epoch) == {}
    ensures forall updates :: Lists(updates, s, s.epoch) ==> updates == []
  {
    hide PendingAt, StateLine;
    var e := s.epoch;
    assert SetAt(s, e - 1) == SetAt(s, e) && HasPrevious(s, e);
    forall updates | Lists(updates, s, e) ensures updates == [] {
      HasMember(updates);
    }
  }

  lemma HasMember(updates: seq<Update>)
    ensures updates != [] ==> exists u :: u in updates
  {
    if updates != [] {
      assert updates[0] in updates;
    }
  }

  // ---------- within an epoch ----------

  ghost predicate SetsWritten(s: Pos) {
    s.sets.lastUpdate == s.epoch
  }

  lemma ChangeWrites(s: Pos, v: Address, change: int, i: nat, t: Pos)
    requires Core(s) && Changed(s, v, change, i, t)
    ensures SetsWritten(t)
  {
    hide ChangeStake, SetsTrack, StakesFit, SetsOk, PowersFollow, TotalPowerOk, StateLine, UpdateFrom;
    ChangeFrame(s, v, change, i, t);
    UpdateFromDelta(Mover(s.params, v, Some(s.totals[v]), change), s.sets, s.epoch, i, s.params.unbondingLen, s.epoch);
  }

  lemma BecomeWrites(s: Pos, a: Address, reward: Address, t: Pos)
    requires Core(s) && BecomeValidator(s, a, reward) == Ok(t)
    ensures SetsWritten(t)
  {
    hide SetsTrack, StakesFit, SetsOk, PowersFollow, TotalPowerOk, StateLine, UpdateFrom, AddAt, InitAt;
    var pipeline := s.params.pipelineLen;
    UpdateFromDelta(NewcomerAdder(a, s.params.maxValidatorSlots), s.sets, s.epoch, pipeline, s.params.unbondingLen,
      s.epoch);
  }

  ghost predicate SameSets(s: Pos, t: Pos) {
    t.sets == s.sets && t.states == s.states
  }

  /** Within an epoch, a step updates the validator sets or leaves them and the
      states of the validators alone; it tells the engine nothing. */
  lemma StepWithin(x: System, a: Action, y: System)
    requires Inv(x) && Next(x, a, y) && !a.DoNextEpoch?
    ensures y.pos.epoch == x.pos.epoch && y.hist.engine == x.hist.engine
    ensures SameSets(x.pos, y.pos) || SetsWritten(y.pos)
  {
    hide SetsTrack, StakesFit, SetsOk, PowersFollow, TotalPowerOk, BondsShaped, Filled, Books, EngineOk, BondTokens,
      UnbondTokens, Withdraw, WithdrawTokens, SlashValidator, BecomeValidator, Takeable, StateLine, ChangeStake,
      BondAfter, BondLeft, UnbondAfter, WorthInAll, DueBy, MulBpsSigned, At, MaxTotalVotingPower;
    var s := x.pos;
    match a
    case DoBecome(address, reward) =>
      var r := BecomeValidator(s, address, reward);
      if r.Ok? {
        BecomeWrites(s, address, reward, r.value);
        BecomeValidatorBonds(s, address, reward, r.value);
      }
    case DoBond(source, v, amount) =>
      var r := BondTokens(s, source, v, amount);
      if r.Ok? {
        var t := BondParts(s, source, v, amount, r.value);
        ChangeWrites(s, v, amount, s.params.pipelineLen, t);
      }
    case DoUnbond(source, v, amount, taken) =>
      var r := UnbondTokens(s, source, v, amount, taken);
      if r.Ok? {
        var t := UnbondParts(s, source, v, amount, taken, r.value);
        ChangeWrites(s, v, 0 - WorthInAll(taken, SlashesOf(s, v)) as int, s.params.unbondingLen, t);
      }
    case DoWithdraw(source, v) =>
      var r := Withdraw(s, source, v);
      if r.Ok? {
        WithdrawPays(s, source, v, r.value);
        WithdrawEffect(s, source, v, r.value.pos);
      }
    case DoSlash(v, slashType, evidenceEpoch) =>
      var r := SlashValidator(s, v, slashType, evidenceEpoch);
      if r.Ok? {
        var t, slashed := SlashParts(s, v, slashType, evidenceEpoch, r.value);
        ChangeWrites(s, v, -slashed, s.params.pipelineLen, t);
      }
  }

  /** No epoch starts between two states of a run. */
  ghost predicate WithinEpoch(actions: seq<Action>, i: nat, j: nat) {
    i <= j <= |actions| && forall k :: i <= k < j ==> !actions[k].DoNextEpoch?
  }

  lemma {:induction false} StepsWithin(xs: seq<System>, actions: seq<Action>, i: nat, j: nat)
    requires Run(xs, actions) && WithinEpoch(actions, i, j)
    ensures xs[j].pos.epoch == xs[i].pos.epoch && xs[j].hist.engine == xs[i].hist.engine
    ensures SameSets(xs[i].pos, xs[j].pos) || SetsWritten(xs[j].pos)
    decreases j
  {
    hide Run, Inv, Next;
    RunSize(xs, actions);
    if i < j {
      StepsWithin(xs, actions, i, j - 1);
      RunInv(xs, actions, j - 1);
      RunStep(xs, actions, j - 1);
      StepWithin(xs[j - 1], actions[j - 1], xs[j]);
    }
  }

  lemma EpochStep(xs: seq<System>, actions: seq<Action>, i: nat)
    requires Run(xs, actions) && i < |actions| && actions[i].DoNextEpoch?
    ensures |xs| == |actions| + 1 && xs[i + 1].pos == xs[i].pos.(epoch := xs[i].pos.epoch + 1)
  {
    hide Lists, Replay, WindowsFit;
    RunSize(xs, actions);
    RunStep(xs, actions, i);
  }

  lemma SameUpdates(s: Pos, t: Pos, updates: seq<Update>, epoch: nat)
    requires SameSets(s, t) && Lists(updates, t, epoch)
    ensures Lists(updates, s, epoch)
  {
    hide Get;
    assert ActiveUpdates(s, epoch) == ActiveUpdates(t, epoch);
    assert Deactivations(s, epoch) == Deactivations(t, epoch);
  }

  /** In any run, suppose that the updates of an epoch are computed some steps after
      the epoch has started. They leave the engine with the active validators of
      the epoch if and only if none of these steps has updated the validator sets,
      or the active validators with power are those of the previous epoch. */
  lemma LateEngineOfRuns(xs: seq<System>, actions: seq<Action>, i: nat, j: nat, late: seq<Update>)
    requires Run(xs, actions) && i < |actions| && actions[i].DoNextEpoch? && WithinEpoch(actions, i + 1, j)
    requires Lists(late, xs[j].pos, xs[j].pos.epoch)
    ensures |xs| == |actions| + 1
    ensures SetsWritten(xs[j].pos) ==> late == []
    ensures var s, t := xs[i].pos, xs[j].pos;
      Replay(xs[i].hist.engine, late) == Powerful(SetAt(t, t.epoch)) <==>
        !SetsWritten(t) || Powerful(SetAt(s, s.epoch)) == Powerful(SetAt(s, s.epoch + 1))
  {
    hide Run, Core, BondsShaped, Filled, Books, Lists, Powerful, SetsWritten, Get, SameSets;
    EpochStep(xs, actions, i);
    StepsWithin(xs, actions, i + 1, j);
    RunInv(xs, actions, i);
    RunInv(xs, actions, i + 1);
    RunInv(xs, actions, j);
    var s, t := xs[i].pos, xs[j].pos;
    if SetsWritten(t) {
      CurrentNothingSent(t, late);
    } else {
      NotYetWritten(s, xs[i + 1].pos, t, late);
      EnterEpoch(s, late);
      SameSetAt(xs[i + 1].pos, t);
    }
  }

  lemma CurrentNothingSent(t: Pos, late: seq<Update>)
    requires Core(t) && SetsWritten(t) && t.epoch > 0 && Lists(late, t, t.epoch)
    ensures late == []
  {
    hide SetsTrack, StakesFit, SetsOk, PowersFollow, TotalPowerOk, Lists, StateLine;
    NothingSent(t);
  }

  lemma NotYetWritten(s: Pos, r: Pos, t: Pos, late: seq<Update>)
    requires r == s.(epoch := s.epoch + 1) && SameSets(r, t) && t.epoch == r.epoch && Lists(late, t, t.epoch)
    ensures Lists(late, s, s.epoch + 1)
  {
    hide Lists;
    SameUpdates(s, t, late, t.epoch);
  }

  lemma SameSetAt(r: Pos, t: Pos)
    requires SameSets(r, t)
    ensures forall e :: SetAt(t, e) == SetAt(r, e)
  {
    hide Get;
  }
}

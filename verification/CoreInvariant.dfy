/**
 What holds of the stakes, voting powers and validator sets in every reachable
 state, at every epoch from the current one on, with or without slashes.
 */
module CoreInvariant {
  import opened Options
  import opened Timelines
  import opened Sums
  import opened Params
  import opened ValidatorSets
  import opened Ledger
  import opened StakeViews

  // ---------- views ----------

  ghost function Stake(s: Pos, v: Address, epoch: nat): int {
    StakeIn(Find(s.totals, v), epoch)
  }

  ghost function Power(s: Pos, v: Address, epoch: nat): int {
    StakeIn(Find(s.powers, v), epoch)
  }

  /** The voting power that a validator's stake is worth. */
  ghost function Weight(s: Pos, v: Address, epoch: nat): nat {
    VotingPower(s.params, Max(0, Stake(s, v, epoch)))
  }

  function SetAt(s: Pos, epoch: nat): ValidatorSet {
    Get(Later, s.sets, epoch).UnwrapOr(ValidatorSet({}, {}))
  }

  /** The validator takes part from this epoch at the latest. */
  ghost predicate Joined(s: Pos, v: Address, epoch: nat) {
    v in s.states && Get(Later, s.states[v], epoch) == Some(Candidate)
  }

  /** Every validator that has joined, with the weight of its stake. */
  ghost function Members(s: Pos, epoch: nat): set<Weighted> {
    set v | v in s.states && Joined(s, v, epoch) :: Weighted(Weight(s, v, epoch), v)
  }

  ghost function PowersAt(s: Pos, epoch: nat): map<Address, int> {
    map v | v in s.powers :: Power(s, v, epoch)
  }

  // ---------- the invariant ----------

  ghost predicate ParamsOk(params: PosParams) {
    Valid(params) && params.maxValidatorSlots >= 1
  }

  /** Every container fits its window and was updated no later than now; the
      validator sets were updated with every change of stake. */
  ghost predicate Windows(s: Pos) {
    var off := s.params.unbondingLen;
    && Fits(s.sets, off) && s.sets.lastUpdate <= s.epoch && DeltaAt(s.sets, s.sets.lastUpdate).Some?
    && Fits(s.totalPower, off) && s.totalPower.lastUpdate <= s.epoch
    && s.totals.Keys == s.states.Keys && s.powers.Keys == s.states.Keys
    && (forall v :: v in s.totals ==> Fits(s.totals[v], off) && s.totals[v].lastUpdate <= s.sets.lastUpdate)
    && (forall v :: v in s.powers ==> Fits(s.powers[v], off) && s.powers[v].lastUpdate <= s.sets.lastUpdate)
    && (forall v :: v in s.states ==> StateLine(s.states[v], s.params.pipelineLen) && s.states[v].lastUpdate <= s.epoch)
  }

  /** A validator is pending and then a candidate, within the pipeline. */
  ghost predicate StateLine(t: Timeline<ValidatorState>, pipeline: nat) {
    forall e :: t.lastUpdate <= e ==>
      && Get(Later, t, e) in {Some(Pending), Some(Candidate)}
      && (Get(Later, t, e) == Some(Candidate) ==> Get(Later, t, e + 1) == Some(Candidate))
      && (t.lastUpdate + pipeline <= e ==> Get(Later, t, e) == Some(Candidate))
  }

  /** Where a stake changes, the validator sets have an entry of their own. */
  ghost predicate SetsTrack(s: Pos) {
    forall v, x :: v in s.totals && x > s.sets.lastUpdate && DeltaAt(s.totals[v], x).Some? ==> DeltaAt(s.sets, x).Some?
  }

  ghost predicate StakesFit(s: Pos) {
    forall v, e :: v in s.totals && s.epoch <= e ==> FitsU64(Stake(s, v, e))
  }

  /** The validator set at an epoch is well formed and holds exactly the joined
      validators, each once, with the weight of its stake. */
  ghost predicate SetOk(s: Pos, epoch: nat) {
    WellFormed(SetAt(s, epoch), s.params.maxValidatorSlots) && SetAt(s, epoch).All() == Members(s, epoch)
  }

  ghost predicate SetsOk(s: Pos) {
    forall e :: s.epoch <= e ==> SetOk(s, e)
  }

  ghost predicate PowersFollow(s: Pos) {
    forall v, e :: v in s.powers && s.epoch <= e ==> Power(s, v, e) == Weight(s, v, e)
  }

  ghost predicate TotalPowerOk(s: Pos) {
    forall e :: s.epoch <= e ==> At(s.totalPower, e) == SumOf(PowersAt(s, e))
  }

  ghost predicate Core(s: Pos) {
    && ParamsOk(s.params)
    && Windows(s)
    && SetsTrack(s)
    && StakesFit(s)
    && SetsOk(s)
    && PowersFollow(s)
    && TotalPowerOk(s)
  }

  // ---------- small consequences ----------

  lemma {:induction false} SetsPresent(s: Pos, epoch: nat)
    requires Windows(s) && s.sets.lastUpdate <= epoch
    ensures Get(Later, s.sets, epoch) == Some(SetAt(s, epoch))
  {
    GetNone(Later, s.sets, epoch);
  }

  lemma StakeConstant(s: Pos, v: Address, lo: nat, hi: nat)
    requires Windows(s) && SetsTrack(s) && v in s.totals && s.sets.lastUpdate <= lo <= hi
    requires forall x :: lo < x <= hi ==> DeltaAt(s.sets, x) == None
    ensures Stake(s, v, lo) == Stake(s, v, hi)
  {
    forall x | lo < x <= hi ensures DeltaAt(s.totals[v], x) == None {
      assert DeltaAt(s.sets, x) == None;
    }
    GetConstant(AddInts, s.totals[v], lo, hi);
  }

  // ---------- a change of stake ----------

  /** A change of a known validator's stake that went through. */
  ghost predicate Changed(s: Pos, v: Address, change: int, i: nat, s': Pos) {
    && i <= s.params.unbondingLen && Fits(s.sets, s.params.unbondingLen)
    && v in s.totals && v in s.powers
    && ChangeStake(s, v, change, i) == Ok(s')
  }

  lemma ChangeFrame(s: Pos, v: Address, change: int, i: nat, s': Pos)
    requires Changed(s, v, change, i, s')
    ensures v in s'.totals && v in s'.powers
    ensures s' == s.(sets := s'.sets, totals := s.totals[v := s'.totals[v]], powers := s.powers[v := s'.powers[v]],
      totalPower := s'.totalPower)
    ensures s'.totals[v] == AddAt(AddInts, s.totals[v], change, s.epoch, i, s.params.unbondingLen)
    ensures s'.sets == UpdateFrom(Mover(s.params, v, Some(s.totals[v]), change), s.sets, s.epoch, i,
      s.params.unbondingLen)
    ensures MoveFits(s.sets, Some(s.totals[v]), change, s.epoch + i, s.epoch + s.params.unbondingLen)
    ensures UpdatePowers(s.params, s'.totals[v], s.powers[v], s.totalPower, s.epoch, s.epoch + i) ==
      Ok((s'.powers[v], s'.totalPower))
  {
    hide AddAt, UpdateFrom, UpdatePowers, MoveFits, Mover;
  }

  /** The stake moves at exactly the epochs from the offset on. */
  lemma ChangeStakes(s: Pos, v: Address, change: int, i: nat, s': Pos)
    requires Changed(s, v, change, i, s')
    requires Fits(s.totals[v], s.params.unbondingLen) && s.totals[v].lastUpdate <= s.epoch
    ensures forall e :: s.epoch <= e ==> Stake(s', v, e) == Stake(s, v, e) + if e < s.epoch + i then 0 else change
    ensures forall w, e :: w != v ==> Stake(s', w, e) == Stake(s, w, e)
  {
    hide ChangeStake, AddAt, UpdateFrom, UpdatePowers, MoveFits, Mover, Get;
    ChangeFrame(s, v, change, i, s');
    forall e | s.epoch <= e ensures Stake(s', v, e) == Stake(s, v, e) + if e < s.epoch + i then 0 else change {
      AddAtInt(s.totals[v], change, s.epoch, i, s.params.unbondingLen, e);
    }
  }

  lemma ChangePowers(s: Pos, v: Address, change: int, i: nat, s': Pos)
    requires Changed(s, v, change, i, s') && PowersReady(s.params, s.powers[v], s.totalPower, s.epoch)
    ensures v in s'.powers && PowersReady(s.params, s'.powers[v], s'.totalPower, s.epoch)
    ensures s'.powers[v].lastUpdate == s'.totalPower.lastUpdate == s.epoch
    ensures v in s'.totals
    ensures forall e :: s.epoch <= e ==>
      At(s'.totalPower, e) - At(s.totalPower, e) == At(s'.powers[v], e) - At(s.powers[v], e)
    ensures forall e :: s.epoch <= e < s.epoch + i ==> At(s'.powers[v], e) == At(s.powers[v], e)
    ensures forall e :: s.epoch + i <= e <= s.epoch + s.params.unbondingLen ==>
      FitsU64(At(s'.totals[v], e)) && At(s'.powers[v], e) == VotingPower(s.params, At(s'.totals[v], e))
  {
    hide ChangeStake, AddAt, UpdateFrom, UpdatePowers, MoveFits, Mover, Get, VotingPower;
    ChangeFrame(s, v, change, i, s');
    UpdatePowersEffect(s.params, s'.totals[v], s.powers[v], s.totalPower, s.epoch, s.epoch + i, s'.powers[v],
      s'.totalPower);
  }

  lemma ChangeWindows(s: Pos, v: Address, change: int, i: nat, s': Pos)
    requires Changed(s, v, change, i, s') && Windows(s)
    ensures Windows(s')
    ensures s'.epoch == s.epoch && s'.params == s.params && s'.states == s.states && s'.totals.Keys == s.totals.Keys
    ensures v in s'.totals && s'.totals[v].lastUpdate == s'.sets.lastUpdate == s.epoch
    ensures Fits(s'.totals[v], s.params.unbondingLen)
  {
    hide ChangeStake, AddAt, UpdateFrom, UpdatePowers, MoveFits, Mover, Get, StateLine;
    var c, off := s.epoch, s.params.unbondingLen;
    ChangeFrame(s, v, change, i, s');
    ChangePowers(s, v, change, i, s');
    AddAtShape(AddInts, s.totals[v], change, c, i, off);
    UpdateFromDelta(Mover(s.params, v, Some(s.totals[v]), change), s.sets, c, i, off, c);
    SetsPresent(s, c);
  }

  lemma ChangeTrack(s: Pos, v: Address, change: int, i: nat, s': Pos)
    requires Changed(s, v, change, i, s') && Windows(s) && SetsTrack(s)
    ensures SetsTrack(s')
  {
    hide ChangeStake, AddAt, UpdateFrom, UpdatePowers, MoveFits, Mover, Get, StateLine, DeltaAt;
    var c, off := s.epoch, s.params.unbondingLen;
    ChangeFrame(s, v, change, i, s');
    ChangeWindows(s, v, change, i, s');
    forall w, x | w in s'.totals && x > s'.sets.lastUpdate && DeltaAt(s'.totals[w], x).Some?
      ensures DeltaAt(s'.sets, x).Some?
    {
      UpdateFromDelta(Mover(s.params, v, Some(s.totals[v]), change), s.sets, c, i, off, x);
      SetsPresent(s, x);
      if w == v {
        AddAtDelta(AddInts, s.totals[v], change, c, i, off, x);
        AdvanceTail(AddInts, s.totals[v], c, off, x);
      }
    }
  }

  lemma ChangeFits(s: Pos, v: Address, change: int, i: nat, s': Pos)
    requires Changed(s, v, change, i, s') && Windows(s) && StakesFit(s)
    ensures StakesFit(s')
  {
    hide ChangeStake, Get, StateLine, VotingPower;
    ChangeStakes(s, v, change, i, s');
    ChangeWindows(s, v, change, i, s');
    ChangePowers(s, v, change, i, s');
    var end := s.epoch + s.params.unbondingLen;
    forall w, e | w in s'.totals && s'.epoch <= e ensures FitsU64(Stake(s', w, e)) {
      if w == v && e > end {
        PastWindow(AddInts, s'.totals[v], s.params.unbondingLen, end, e);
        assert FitsU64(At(s'.totals[v], end));
      } else if w == v && e < s.epoch + i {
        assert FitsU64(Stake(s, v, e));
      } else if w != v {
        assert FitsU64(Stake(s, w, e));
      }
    }
  }

  lemma MembersSame(s: Pos, s': Pos, epoch: nat)
    requires s'.states == s.states && s'.params == s.params
    requires forall w :: w in s.states ==> Stake(s', w, epoch) == Stake(s, w, epoch)
    ensures Members(s', epoch) == Members(s, epoch)
  {
    hide StakeIn, Get, VotingPower, Stake;
    forall w | w in s.states
      ensures Joined(s', w, epoch) == Joined(s, w, epoch) && Weight(s', w, epoch) == Weight(s, w, epoch)
    {
    }
  }

  lemma MembersReplaced(s: Pos, s': Pos, v: Address, epoch: nat)
    requires s'.states == s.states && s'.params == s.params && Joined(s, v, epoch)
    requires forall w :: w in s.states && w != v ==> Stake(s', w, epoch) == Stake(s, w, epoch)
    ensures Weighted(Weight(s, v, epoch), v) in Members(s, epoch)
    ensures Members(s', epoch) ==
      Members(s, epoch) - {Weighted(Weight(s, v, epoch), v)} + {Weighted(Weight(s', v, epoch), v)}
  {
    hide StakeIn, Get, VotingPower, Stake;
    forall w | w in s.states && w != v
      ensures Joined(s', w, epoch) == Joined(s, w, epoch) && Weight(s', w, epoch) == Weight(s, w, epoch)
    {
    }
    assert Joined(s', v, epoch);
  }

  /** From the offset on, the set at an epoch has the validator reweighed by its
      stake before and after the change at that very epoch. */
  lemma ChangeSetAt(s: Pos, v: Address, change: int, i: nat, s': Pos, epoch: nat)
    requires Changed(s, v, change, i, s') && Windows(s) && SetsTrack(s) && StakesFit(s)
    requires s.epoch <= epoch
    ensures epoch < s.epoch + i ==> SetAt(s', epoch) == SetAt(s, epoch)
    ensures epoch >= s.epoch + i ==>
      SetAt(s', epoch) == Reweigh(SetAt(s, epoch), v, Weight(s, v, epoch), Weight(s', v, epoch))
  {
    hide ChangeStake, AddAt, UpdateFrom, UpdatePowers, Get, VotingPower, StateLine, Reweigh;
    var c, off := s.epoch, s.params.unbondingLen;
    var f := Mover(s.params, v, Some(s.totals[v]), change);
    ChangeFrame(s, v, change, i, s');
    ChangeStakes(s, v, change, i, s');
    if epoch < c + i {
      UpdateFromBefore(f, s.sets, c, i, off, epoch);
    } else {
      var stamp := UpdateFromAfter(f, s.sets, c, i, off, epoch);
      SetsPresent(s, epoch);
      SetsPresent(s, stamp);
      StakeConstant(s, v, stamp, epoch);
      assert Visited(s.sets, c + i, stamp);
      assert FitsU64(Stake(s, v, stamp));
    }
  }

  lemma ChangeSetOk(s: Pos, v: Address, change: int, i: nat, s': Pos, epoch: nat)
    requires Changed(s, v, change, i, s') && Windows(s) && SetsTrack(s) && StakesFit(s) && ParamsOk(s.params)
    requires s.epoch <= epoch && SetOk(s, epoch) && s.params.pipelineLen <= i
    ensures SetOk(s', epoch)
  {
    hide ChangeStake, Get, VotingPower, SetsTrack, StakesFit, Reweigh, WellFormed, Members, SetAt, Stake, Valid;
    ChangeFrame(s, v, change, i, s');
    ChangeStakes(s, v, change, i, s');
    ChangeSetAt(s, v, change, i, s', epoch);
    if epoch < s.epoch + i {
      MembersSame(s, s', epoch);
    } else {
      assert Joined(s, v, epoch);
      MembersReplaced(s, s', v, epoch);
      ReweighWellFormed(SetAt(s, epoch), v, Weight(s, v, epoch), Weight(s', v, epoch), s.params.maxValidatorSlots);
    }
  }

  /** The changed validator's power is that of its stake at every epoch from the
      offset on, also past the window. */
  lemma ChangedPower(s: Pos, v: Address, change: int, i: nat, s': Pos, epoch: nat)
    requires Changed(s, v, change, i, s') && Windows(s) && s.epoch + i <= epoch
    ensures Power(s', v, epoch) == Weight(s', v, epoch)
  {
    hide ChangeStake, Get, VotingPower, StateLine;
    var off := s.params.unbondingLen;
    var e := Min(epoch, s.epoch + off);
    ChangeWindows(s, v, change, i, s');
    ChangePowers(s, v, change, i, s');
    PastWindowInt(s'.totals[v], off, e, epoch);
    PastWindowInt(s'.powers[v], off, e, epoch);
  }

  lemma PastWindowInt(t: Timeline<int>, off: nat, lo: nat, hi: nat)
    requires Fits(t, off) && lo <= hi && (lo == hi || t.lastUpdate + off <= lo)
    ensures At(t, lo) == At(t, hi)
  {
    if lo < hi {
      PastWindow(AddInts, t, off, lo, hi);
    }
  }

  lemma ChangePowersOk(s: Pos, v: Address, change: int, i: nat, s': Pos)
    requires Changed(s, v, change, i, s') && Windows(s) && PowersFollow(s)
    ensures PowersFollow(s')
  {
    hide ChangeStake, At, VotingPower, StateLine;
    ChangeFrame(s, v, change, i, s');
    ChangeStakes(s, v, change, i, s');
    ChangePowers(s, v, change, i, s');
    forall w, e | w in s'.powers && s.epoch <= e ensures Power(s', w, e) == Weight(s', w, e) {
      assert Power(s, w, e) == Weight(s, w, e);
      if w == v && e >= s.epoch + i {
        ChangedPower(s, v, change, i, s', e);
      }
    }
  }

  lemma PowersAtUpdated(s: Pos, s': Pos, v: Address, epoch: nat)
    requires v in s.powers && v in s'.powers && s'.powers == s.powers[v := s'.powers[v]]
    ensures PowersAt(s', epoch) == PowersAt(s, epoch)[v := Power(s', v, epoch)]
  {
    hide At;
  }

  lemma ChangeTotalPower(s: Pos, v: Address, change: int, i: nat, s': Pos)
    requires Changed(s, v, change, i, s') && Windows(s) && TotalPowerOk(s)
    ensures TotalPowerOk(s')
  {
    hide ChangeStake, At, VotingPower, StateLine, SumOf, PowersAt;
    ChangeFrame(s, v, change, i, s');
    ChangePowers(s, v, change, i, s');
    forall e | s'.epoch <= e ensures At(s'.totalPower, e) == SumOf(PowersAt(s', e)) {
      PowersAtUpdated(s, s', v, e);
      SumUpdate(PowersAt(s, e), v, Power(s', v, e));
      PowersAtLookup(s, v, e);
    }
  }

  lemma PowersAtLookup(s: Pos, v: Address, epoch: nat)
    requires v in s.powers
    ensures ValueAt(PowersAt(s, epoch), v) == At(s.powers[v], epoch) == Power(s, v, epoch)
  {
    hide At;
  }

  /** A change of stake that goes through keeps the invariant. */
  lemma ChangeCore(s: Pos, v: Address, change: int, i: nat, s': Pos)
    requires Core(s) && Changed(s, v, change, i, s') && s.params.pipelineLen <= i
    ensures Core(s')
  {
    hide ChangeStake, Windows, SetsTrack, StakesFit, SetOk, PowersFollow, TotalPowerOk;
    ChangeWindows(s, v, change, i, s');
    ChangeTrack(s, v, change, i, s');
    ChangeFits(s, v, change, i, s');
    ChangePowersOk(s, v, change, i, s');
    ChangeTotalPower(s, v, change, i, s');
    forall e | s'.epoch <= e ensures SetOk(s', e) {
      ChangeSetOk(s, v, change, i, s', e);
    }
  }
}

/**
 The bonds and unbonds that a transition reports to the check, and what the check
 finds in them, also when the validator was slashed.
 */
module ReportedChanges {
  import opened Options
  import opened Timelines
  import opened Sums
  import opened Params
  import opened ValidatorSets
  import opened Ledger
  import opened StakeViews
  import opened CoreInvariant
  import opened CoreSteps
  import opened DeltaMaps
  import opened BondInvariant
  import opened Solvency
  import opened EntryInvariant
  import opened Validation
  import opened ValidationSound
  import opened WriterAgreement
  import opened Contributions

  // ---------- updates of a bond ----------

  /** Keys lie in one entry each, so what was seen is all there is. */
  lemma {:induction false} SeenIsGet<K(!new)>(t: Timeline<map<K, nat>>, rank: K -> nat, epoch: nat)
    requires Shaped(t, rank) && t.lastUpdate <= epoch
    ensures Seen(t, epoch) == Total(Get(AddAmounts<K>, t, epoch))
    decreases epoch
  {
    hide AddAmounts, DeltaAt, Shaped;
    if epoch > t.lastUpdate {
      SeenIsGet(t, rank, epoch - 1);
      PlusAmounts(Get(AddAmounts<K>, t, epoch - 1), DeltaAt(t, epoch));
      ShapedGet(t, rank, epoch - 1);
      EntryRanks(t, rank, epoch);
      var a, b := Total(Get(AddAmounts<K>, t, epoch - 1)), Total(DeltaAt(t, epoch));
      assert a.Keys !! b.Keys;
      AddDisjoint(a, b);
    }
  }

  ghost predicate Within<K>(m: map<K, nat>, n: map<K, nat>) {
    forall k :: k in m ==> k in n && m[k] <= n[k]
  }

  lemma PartWithin<K>(a: map<K, nat>, b: map<K, nat>)
    ensures Within(b, AddAmounts(a, b))
  {
  }

  /** An entry of the container brought forward is part of what there is by then. */
  lemma EntryWithin(t: Timeline<Bond>, c: nat, off: nat, epoch: nat)
    requires Fits(t, off) && t.lastUpdate <= c <= epoch
    ensures Within(Total(DeltaAt(Advance(AddAmounts<nat>, t, c, off), epoch)), Total(Get(AddAmounts<nat>, t, epoch)))
  {
    hide AddAmounts, Advance, DeltaAt;
    AddAmountsLaws<nat>();
    if epoch == c {
      AdvanceHead(AddAmounts<nat>, t, c, off);
    } else {
      AdvanceTail(AddAmounts<nat>, t, c, off, epoch);
      PlusAmounts(Get(AddAmounts<nat>, t, epoch - 1), DeltaAt(t, epoch));
      PartWithin(Total(Get(AddAmounts<nat>, t, epoch - 1)), Total(DeltaAt(t, epoch)));
    }
  }

  lemma UpdateAccepted(params: PosParams, pre: Timeline<Bond>, post: Timeline<Bond>, c: nat)
    requires BondOk(pre, params, c) && BondOk(post, params, c) && post.lastUpdate == c
    requires forall e :: c <= e && e != c + params.pipelineLen ==>
      Within(Total(DeltaAt(post, e)), Total(Get(AddAmounts<nat>, pre, e)))
    ensures BondUpdateOk(params, pre, post, c)
  {
    hide Get, DeltaAt, Seen, AddAmounts, Fits;
    var pipeline := c + params.pipelineLen;
    forall e, k | pre.lastUpdate <= e <= pipeline && k in Total(DeltaAt(post, e))
      ensures AmountAllowed(pre, c, pipeline, e, k, Total(DeltaAt(post, e))[k])
    {
      if e < c {
        NoEntryBefore(post, e);
      } else {
        assert Placed(Total(DeltaAt(post, e)), StartRank, e, e == c);
        SeenIsGet(pre, StartRank, e);
      }
    }
  }

  lemma BondAfterAccepted(s: Pos, id: BondId, amount: nat)
    requires BondsShaped(s) && id in s.bonds && amount > 0 && Valid(s.params)
    ensures BondUpdateOk(s.params, s.bonds[id], BondAfter(s, id, amount), s.epoch)
  {
    hide Get, DeltaAt, AddAmounts, AddAt, Advance, Shaped, Valid, BondUpdateOk;
    var c, off := s.epoch, s.params.pipelineLen;
    var pre, post := s.bonds[id], BondAfter(s, id, amount);
    BondAfterOk(s, id, amount);
    AddAtShape(AddAmounts<nat>, pre, BondDelta(s, amount), c, off, off);
    forall e | c <= e && e != c + off ensures Within(Total(DeltaAt(post, e)), Total(Get(AddAmounts<nat>, pre, e))) {
      AddAtDelta(AddAmounts<nat>, pre, BondDelta(s, amount), c, off, off, e);
      EntryWithin(pre, c, off, e);
    }
    UpdateAccepted(s.params, pre, post, c);
  }

  lemma LeftWithin(bond: Option<Bond>, taken: Bond, n: Bond)
    requires Within(Total(bond), n)
    ensures Within(Total(LeftOver(bond, taken)), n)
  {
  }

  lemma LeftEntry(u: Timeline<Bond>, taken: seq<Bond>, epoch: nat, n: Bond)
    requires |taken| == |u.data| && Within(Total(DeltaAt(u, epoch)), n)
    ensures Within(Total(DeltaAt(u.(data := LeftOvers(u.data, taken)), epoch)), n)
  {
    hide LeftOver;
    var i := epoch - u.lastUpdate;
    if 0 <= i < |u.data| {
      LeftWithin(u.data[i], taken[i], n);
    }
  }

  lemma BondLeftAccepted(s: Pos, id: BondId, amount: nat, taken: seq<Bond>)
    requires BondsShaped(s) && Takeable(s, id, amount, taken)
    ensures BondUpdateOk(s.params, s.bonds[id], BondLeft(s, id, taken), s.epoch)
  {
    hide Get, DeltaAt, AddAmounts, Advance, Shaped, LeftOvers, BondUpdateOk, TakesFrom;
    var c, off := s.epoch, s.params.pipelineLen;
    var u := Advance(AddAmounts<nat>, s.bonds[id], c, off);
    BondLeftOk(s, id, amount, taken);
    AdvanceShape(AddAmounts<nat>, s.bonds[id], c, off);
    forall e | c <= e
      ensures Within(Total(DeltaAt(BondLeft(s, id, taken), e)), Total(Get(AddAmounts<nat>, s.bonds[id], e)))
    {
      EntryWithin(s.bonds[id], c, off, e);
      LeftEntry(u, taken, e, Total(Get(AddAmounts<nat>, s.bonds[id], e)));
    }
    UpdateAccepted(s.params, s.bonds[id], BondLeft(s, id, taken), c);
  }

  // ---------- bonds and unbonds that are reported ----------

  ghost function BondData(s: Pos, s': Pos, id: BondId): Data<Timeline<Bond>> {
    Data(Find(s.bonds, id), Find(s'.bonds, id))
  }

  ghost function UnbondData(s: Pos, s': Pos, id: BondId): Data<Timeline<Unbond>> {
    Data(Find(s.unbonds, id), Find(s'.unbonds, id))
  }

  /** What a reported change contributes, by what it is worth. */
  ghost function Contributed(before: bool, after: bool, x: int): Option<int> {
    if before && after then NonZero(x) else if before || after then Some(x) else None
  }

  /** A reported bond contributes what the amounts that differ are worth. */
  lemma BondContributes(s: Pos, s': Pos, id: BondId, slashes: seq<Slash>)
    requires BondsShaped(s) && BondsShaped(s') && s'.params == s.params && s'.epoch == s.epoch
    requires id in s'.bonds ==> s'.bonds[id].lastUpdate == s.epoch
    ensures BondContribution(s.params, s.epoch, BondData(s, s', id), slashes) ==
      Contributed(id in s.bonds, id in s'.bonds,
        SumOf(Valued(Gap(BondsOf(s, id), BondsOf(s', id)), BondWorth(slashes))))
  {
    hide Contribution, SumOf, AllOf, Shaped, BondWorth, Odd, Valued, Gap;
    WorthsOdd(slashes);
    ContributionIsWorth(BondData(s, s', id), BondWorth(slashes), StartRank, s.epoch, s.params.pipelineLen);
  }

  lemma UnbondContributes(s: Pos, s': Pos, id: BondId, slashes: seq<Slash>)
    requires BondsShaped(s) && BondsShaped(s') && s'.params == s.params && s'.epoch == s.epoch
    requires id in s'.unbonds ==> s'.unbonds[id].lastUpdate == s.epoch
    ensures UnbondContribution(s.params, s.epoch, UnbondData(s, s', id), slashes) ==
      Contributed(id in s.unbonds, id in s'.unbonds,
        SumOf(Valued(Gap(UnbondsOf(s, id), UnbondsOf(s', id)), UnbondWorth(slashes))))
  {
    hide Contribution, SumOf, AllOf, Shaped, UnbondWorth, Odd, Valued, Gap;
    WorthsOdd(slashes);
    ContributionIsWorth(UnbondData(s, s', id), UnbondWorth(slashes), EndRank, s.epoch, s.params.unbondingLen);
  }

  lemma NewBondAccepted(s: Pos, id: BondId, amount: nat)
    requires id !in s.bonds
    ensures BondInitOk(s.params, BondAfter(s, id, amount), s.epoch)
  {
  }

  lemma BondAfterFresh(s: Pos, id: BondId, amount: nat)
    requires BondsShaped(s)
    ensures BondAfter(s, id, amount).lastUpdate == s.epoch
  {
    hide AddAt, InitAt, Shaped;
    var c, off := s.epoch, s.params.pipelineLen;
    if id in s.bonds {
      AddAtShape(AddAmounts<nat>, s.bonds[id], BondDelta(s, amount), c, off, off);
    } else {
      InitAtFits(BondDelta(s, amount), c, off);
    }
  }

  /** What bonded tokens are worth to the check: less than they are when there is
      evidence of an epoch at or after their start. */
  ghost function BondValue(s: Pos, v: Address, amount: nat): nat {
    AfterSlashes(RatesFrom(SlashesOf(s, v), s.epoch + s.params.pipelineLen), amount)
  }

  lemma SingleWorth(start: nat, amount: nat, slashes: seq<Slash>)
    ensures WorthOf(map[start := amount], slashes) == AfterSlashes(RatesFrom(slashes, start), amount)
  {
    hide SumOf, AfterSlashes, RatesFrom;
    var x := AfterSlashes(RatesFrom(slashes, start), amount);
    assert Worths(map[start := amount], slashes) == map[start := x];
    SumSingle<nat>(start, x);
  }

  /** A bonding reports a bond with the value of the bonded amount. It is acceptable
      in itself unless it is new and of no value. */
  lemma BondReport(s: Pos, source: Option<Address>, v: Address, amount: nat, s': Pos)
    requires Sound(s) && BondTokens(s, source, v, amount) == Ok(s')
    ensures var id, slashes, x := IdOf(source, v), SlashesOf(s, v), BondValue(s, v, amount);
      && (BondDataOk(s.params, s.epoch, BondData(s, s', id), slashes) <==> id in s.bonds || x != 0)
      && BondContribution(s.params, s.epoch, BondData(s, s', id), slashes) == Contributed(id in s.bonds, true, x)
  {
    hide BondTokens, Windows, BondsShaped, SumOf, AddAmounts, AllOf, BondAfter, ChangeStake, BondUpdateOk, BondInitOk,
      Contribution, Valid, BondsOf, Valued, Gap, AfterSlashes, RatesFrom, BondWorth, BondContribution, WorthOf;
    var id, slashes := IdOf(source, v), SlashesOf(s, v);
    var t := BondParts(s, source, v, amount, s');
    BondEffect(s, source, v, amount, s');
    GapOfAdded(BondsOf(s, id), BondDelta(s, amount));
    WorthAgrees(BondDelta(s, amount), map[], slashes);
    SingleWorth(s.epoch + s.params.pipelineLen, amount, slashes);
    BondAfterFresh(s, id, amount);
    BondContributes(s, s', id, slashes);
    if id in s.bonds {
      BondAfterAccepted(s, id, amount);
    } else {
      NewBondAccepted(s, id, amount);
    }
  }

  lemma UnbondAfterFresh(s: Pos, id: BondId, amount: nat, taken: seq<Bond>)
    requires BondsShaped(s) && Takeable(s, id, amount, taken) && s.params.unbondingLen > 0
    ensures UnbondAfter(s, id, taken).lastUpdate == s.epoch && BondLeft(s, id, taken).lastUpdate == s.epoch
  {
    hide AddAt, InitAt, Shaped, Advance, UnbondDelta, LeftOvers, TakesFrom, AddAmounts;
    var c, off := s.epoch, s.params.unbondingLen;
    UnbondBeforeOk(s, id);
    AddAtShape(AddAmounts<(nat, nat)>, UnbondBefore(s, id), UnbondDelta(s, taken), c, off, off);
    AdvanceShape(AddAmounts<nat>, s.bonds[id], c, s.params.pipelineLen);
  }

  /** What the unbonded tokens are worth to the check: more than they were in the
      bond when there is evidence of an epoch after their end. */
  ghost function UnbondValue(s: Pos, v: Address, taken: seq<Bond>): nat
    requires s.params.unbondingLen > 0
  {
    Withdrawable(UnbondDelta(s, taken), SlashesOf(s, v))
  }

  /** An unbonding reports an acceptable bond and unbond: what the taken tokens are
      worth is gone from the one, and their value in the unbond is in the other. */
  lemma UnbondReport(s: Pos, source: Option<Address>, v: Address, amount: nat, taken: seq<Bond>, s': Pos)
    requires Sound(s) && UnbondTokens(s, source, v, amount, taken) == Ok(s')
    requires Takeable(s, IdOf(source, v), amount, taken)
    ensures IdOf(source, v) in s.bonds && IdOf(source, v) in s'.unbonds
    ensures s'.unbonds[IdOf(source, v)].lastUpdate == s.epoch
    ensures var id, slashes := IdOf(source, v), SlashesOf(s, v);
      && BondDataOk(s.params, s.epoch, BondData(s, s', id), slashes)
      && BondContribution(s.params, s.epoch, BondData(s, s', id), slashes) ==
        Contributed(true, id in s'.bonds, 0 - WorthInAll(taken, slashes))
      && UnbondContribution(s.params, s.epoch, UnbondData(s, s', id), slashes) ==
        Contributed(id in s.unbonds, true, UnbondValue(s, v, taken))
  {
    hide UnbondTokens, Windows, BondsShaped, SumOf, AddAmounts, AllOf, BondLeft, UnbondAfter, UnbondDelta,
      ChangeStake, BondUpdateOk, Contribution, MaxTotalVotingPower, BondsOf, UnbondsOf, TakenInAll, WorthInAll, Takes,
      Advance, DueBy, Get, BondContribution, UnbondContribution, Valued, Gap, Negated, Odd, BondWorth, UnbondWorth,
      WorthOf, Withdrawable;
    var id, slashes := IdOf(source, v), SlashesOf(s, v);
    var t := UnbondParts(s, source, v, amount, taken, s');
    UnbondEffect(s, source, v, amount, taken, s');
    UnbondDeltaPlaced(s, id, amount, taken);
    TakenStarts(s, id, amount, taken);
    GapOfAdded(BondsOf(s', id), TakenInAll(taken));
    GapOfAdded(UnbondsOf(s, id), UnbondDelta(s, taken));
    WorthsOdd(slashes);
    WorthNegated(TakenInAll(taken), BondWorth(slashes));
    WorthAgrees(TakenInAll(taken), UnbondDelta(s, taken), slashes);
    TakenWorth(s, id, amount, taken, slashes);
    UnbondAfterFresh(s, id, amount, taken);
    BondContributes(s, s', id, slashes);
    UnbondContributes(s, s', id, slashes);
    BondLeftAccepted(s, id, amount, taken);
  }

  /** A withdrawal reports an acceptable unbond without the tokens that were due;
      what these are worth is what is paid out. */
  lemma WithdrawReport(s: Pos, source: Option<Address>, v: Address, s': Pos)
    requires Sound(s) && WithdrawTokens(s, source, v) == Ok(s')
    ensures IdOf(source, v) in s'.unbonds ==> s'.unbonds[IdOf(source, v)].lastUpdate == s.epoch
    ensures UnbondContribution(s.params, s.epoch, UnbondData(s, s', IdOf(source, v)), SlashesOf(s, v)).UnwrapOr(0) ==
      s'.balance - s.balance <= 0
  {
    hide WithdrawTokens, Windows, BondsShaped, SumOf, AddAmounts, AllOf, Contribution, Valid, UnbondsOf, DueBy, Get,
      DeleteHead, Withdrawable, Valued, Gap, Negated, Odd, BondWorth, UnbondWorth, UnbondContribution;
    var id, slashes := IdOf(source, v), SlashesOf(s, v);
    var t, r := WithdrawParts(s, source, v, s');
    WithdrawEffect(s, source, v, s');
    DuePositive(s, id);
    GapOfTaken(DueBy(s, id, s.epoch), UnbondsOf(s', id));
    WorthsOdd(slashes);
    WorthNegated(DueBy(s, id, s.epoch), UnbondWorth(slashes));
    WorthAgrees(map[], DueBy(s, id, s.epoch), slashes);
    HeadDeleted(s, id);
    UnbondContributes(s, s', id, slashes);
  }

  lemma DuePositive(s: Pos, id: BondId)
    requires BondsShaped(s)
    ensures Positive(DueBy(s, id, s.epoch))
  {
    hide Get, Shaped, AddAmounts;
    if id in s.unbonds {
      ShapedGet(s.unbonds[id], EndRank, s.epoch);
    }
  }

  lemma HeadDeleted(s: Pos, id: BondId)
    requires BondsShaped(s) && id in s.unbonds
    ensures DeleteHead(AddAmounts<(nat, nat)>, s.unbonds[id], s.epoch, s.params.unbondingLen).lastUpdate == s.epoch
  {
    hide Shaped, AddAmounts;
    AdvanceShape(AddAmounts<(nat, nat)>, s.unbonds[id], s.epoch, s.params.unbondingLen);
  }
}

/**
 Updates of a bond or an unbond whose prior state was updated later than now:
 the check does not look into them. All other updates are looked into, and no run
 has such a prior state.
 */
module LaterStates {
  import opened Options
  import opened Timelines
  import opened Sums
  import opened Params
  import opened ValidatorSets
  import opened Ledger
  import opened CoreInvariant
  import opened DeltaMaps
  import opened BondInvariant
  import opened Consensus
  import opened Runs
  import opened Validation
  import opened ValidationSound

  ghost predicate FromLater<T>(data: Data<Timeline<T>>, current: nat) {
    data.pre.Some? && data.post.Some? && data.post.value.lastUpdate == current < data.pre.value.lastUpdate
  }

  ghost predicate Unread(change: Change, current: nat) {
    match change
    case BondChange(_, data, _) => FromLater(data, current)
    case UnbondChange(_, data, _) => FromLater(data, current)
    case _ => false
  }

  /** No error is found in such an update and it contributes nothing, whatever the
      two states hold. */
  lemma UnreadStep(params: PosParams, current: nat, f: Findings, change: Change)
    requires Unread(change, current)
    ensures OkOf(params, current, change)
    ensures change.BondChange? ==> BondContribution(params, current, change.bond, change.slashes) == None
    ensures change.UnbondChange? ==> UnbondContribution(params, current, change.unbond, change.slashes) == None
    ensures Step(params, current, f, change) == f
  {
    hide WorthThrough, Differences, SumOf, Valued, AmountAllowed;
  }

  lemma CollectLast(params: PosParams, current: nat, a: seq<Change>, change: Change)
    ensures Collect(params, current, a + [change]) == Step(params, current, Collect(params, current, a), change)
  {
    hide Step;
    assert (a + [change])[..|a|] == a;
  }

  lemma {:induction false} UnreadAnywhere(params: PosParams, current: nat, a: seq<Change>, change: Change,
                                          b: seq<Change>)
    requires Unread(change, current)
    ensures Collect(params, current, a + [change] + b) == Collect(params, current, a + b)
    decreases |b|
  {
    hide Step, Collect, Unread;
    if b == [] {
      assert a + [change] + b == a + [change] && a + b == a;
      CollectLast(params, current, a, change);
      UnreadStep(params, current, Collect(params, current, a), change);
    } else {
      var rest, last := b[..|b| - 1], b[|b| - 1];
      UnreadAnywhere(params, current, a, change, rest);
      assert a + [change] + b == (a + [change] + rest) + [last];
      assert a + b == (a + rest) + [last];
      CollectLast(params, current, a + [change] + rest, last);
      CollectLast(params, current, a + rest, last);
    }
  }

  /** Wherever it stands in a list of changes, such an update has no part in the
      verdict. */
  lemma UnreadChangesNoVerdict(params: PosParams, current: nat, a: seq<Change>, change: Change, b: seq<Change>,
                               order: seq<nat>)
    requires Unread(change, current)
    ensures Accepts(params, a + [change] + b, current, order) <==> Accepts(params, a + b, current, order)
  {
    hide Collect, Clean, Unread;
    UnreadAnywhere(params, current, a, change, b);
  }

  // ---------- updates that are looked into ----------

  /** What is found when nothing but the tokens of one validator differs. */
  ghost function OnlyTokens(ok: bool, bonds: map<Address, int>, unbonds: map<Address, int>): Findings {
    NOTHING.(ok := ok, bonds := bonds, unbonds := unbonds)
  }

  lemma CleanTokens(params: PosParams, current: nat, order: seq<nat>, ok: bool, bonds: map<Address, int>,
                    unbonds: map<Address, int>)
    requires bonds == map[] || unbonds == map[]
    requires forall v, w :: v in unbonds && w in unbonds ==> v == w
    ensures Clean(params, OnlyTokens(ok, bonds, unbonds), current, order) <==>
      ok && bonds == map[] && SumOf(unbonds) == 0 && forall v :: v in unbonds ==> unbonds[v] <= 0
  {
    hide SumOf;
    SumOfNothing<Address>();
    var f := OnlyTokens(ok, bonds, unbonds);
    if v :| v in bonds {
      assert v !in f.totals;
    }
  }

  lemma LoneFindings(params: PosParams, current: nat, change: Change)
    requires change.BondChange? || change.UnbondChange?
    ensures Collect(params, current, [change]) == OnlyTokens(OkOf(params, current, change),
      BondsAfter(params, current, map[], change), UnbondsAfter(params, current, map[], change))
  {
    hide OkOf, BondsAfter, UnbondsAfter;
    CollectLast(params, current, [], change);
    assert [] + [change] == [change];
  }

  /** An update of a bond on its own is accepted exactly when it is not looked into,
      or its amounts may stand where they do and come to as many tokens as before. */
  lemma LoneBondUpdate(params: PosParams, id: BondId, pre: Timeline<Bond>, post: Timeline<Bond>, slashes: seq<Slash>,
                       current: nat, order: seq<nat>)
    ensures Accepts(params, [BondChange(id, Data(Some(pre), Some(post)), slashes)], current, order) <==>
      && post.lastUpdate == current
      && (|| pre.lastUpdate > current
          || (&& BondUpdateOk(params, pre, post, current)
              && SumOf(Valued(Differences(pre, post, current + params.pipelineLen), BondWorth(slashes))) == 0))
  {
    hide Clean, SumOf, Differences, Valued, Collect, BondUpdateOk, OnlyTokens;
    var change := BondChange(id, Data(Some(pre), Some(post)), slashes);
    LoneFindings(params, current, change);
    SumOfNothing<Address>();
    CleanTokens(params, current, order, OkOf(params, current, change), BondsAfter(params, current, map[], change),
      map[]);
    UpdatedNow(params, pre, post, current);
  }

  lemma UpdatedNow(params: PosParams, pre: Timeline<Bond>, post: Timeline<Bond>, current: nat)
    ensures BondUpdateOk(params, pre, post, current) ==> post.lastUpdate == current
    ensures pre.lastUpdate > current ==> (BondUpdateOk(params, pre, post, current) <==> post.lastUpdate == current)
  {
  }

  /** For an unbond only the tokens are compared. */
  lemma LoneUnbondUpdate(params: PosParams, id: BondId, pre: Timeline<Unbond>, post: Timeline<Unbond>,
                         slashes: seq<Slash>, current: nat, order: seq<nat>)
    ensures Accepts(params, [UnbondChange(id, Data(Some(pre), Some(post)), slashes)], current, order) <==>
      && post.lastUpdate == current
      && (|| pre.lastUpdate > current
          || SumOf(Valued(Differences(pre, post, current + params.unbondingLen), UnbondWorth(slashes))) == 0)
  {
    hide Clean, SumOf, Differences, Valued, Collect, OnlyTokens;
    var change := UnbondChange(id, Data(Some(pre), Some(post)), slashes);
    LoneFindings(params, current, change);
    SumOfNothing<Address>();
    var unbonds := UnbondsAfter(params, current, map[], change);
    CleanTokens(params, current, order, OkOf(params, current, change), map[], unbonds);
    var x := UnbondContribution(params, current, change.unbond, slashes);
    if x.Some? {
      assert unbonds == map[id.validator := x.value];
      SumUpdate<Address>(map[], id.validator, x.value);
    }
  }

  /** Without slashes: for shaped amounts, exactly when the tokens are as many as
      before. */
  lemma LoneUpdatesOfShaped(params: PosParams, id: BondId, pre: Timeline<Bond>, post: Timeline<Bond>,
                            from: Timeline<Unbond>, to: Timeline<Unbond>, current: nat, order: seq<nat>)
    requires BondOk(pre, params, current) && BondOk(post, params, current)
    requires UnbondOk(from, params, current) && UnbondOk(to, params, current)
    ensures Accepts(params, [BondChange(id, Data(Some(pre), Some(post)), [])], current, order) <==>
      && BondUpdateOk(params, pre, post, current)
      && SumOf(AllOf(post, params.pipelineLen)) == SumOf(AllOf(pre, params.pipelineLen))
    ensures Accepts(params, [UnbondChange(id, Data(Some(from), Some(to)), [])], current, order) <==>
      && to.lastUpdate == current
      && SumOf(AllOf(to, params.unbondingLen)) == SumOf(AllOf(from, params.unbondingLen))
  {
    hide Accepts, SumOf, Differences, Valued, BondUpdateOk, AllOf, BondWorth, UnbondWorth, Plain, Shaped, Fits;
    LoneBondUpdate(params, id, pre, post, [], current, order);
    LoneUnbondUpdate(params, id, from, to, [], current, order);
    UpdatedNow(params, pre, post, current);
    NoSlashesPlain();
    if post.lastUpdate == current {
      ContributionIsChange(Data(Some(pre), Some(post)), BondWorth([]), StartRank, current, params.pipelineLen);
    }
    if to.lastUpdate == current {
      ContributionIsChange(Data(Some(from), Some(to)), UnbondWorth([]), EndRank, current, params.unbondingLen);
    }
  }

  // ---------- runs ----------

  /** No state of any run holds a bond or an unbond updated later than its epoch,
      so no update of one is left unread. */
  lemma RunsUpdateNothingLater(xs: seq<System>, actions: seq<Action>, i: nat, id: BondId)
    requires Run(xs, actions) && i < |xs|
    ensures id in xs[i].pos.bonds ==> xs[i].pos.bonds[id].lastUpdate <= xs[i].pos.epoch
    ensures id in xs[i].pos.unbonds ==> xs[i].pos.unbonds[id].lastUpdate <= xs[i].pos.epoch
    ensures forall bond, slashes :: id in xs[i].pos.bonds ==>
      !Unread(BondChange(id, Data(Some(xs[i].pos.bonds[id]), bond), slashes), xs[i].pos.epoch)
    ensures forall unbond, slashes :: id in xs[i].pos.unbonds ==>
      !Unread(UnbondChange(id, Data(Some(xs[i].pos.unbonds[id]), unbond), slashes), xs[i].pos.epoch)
  {
    hide Run, Core, Filled, Books, EngineOk, Shaped, Fits;
    RunInv(xs, actions, i);
  }
}

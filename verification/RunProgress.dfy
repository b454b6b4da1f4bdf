/**
 Runs start from every admissible genesis, and every run can go on with any
 attempted transition: the witnesses in a step always exist.
 */
module RunProgress {
  import opened Options
  import opened Timelines
  import opened Sums
  import opened Params
  import opened ValidatorSets
  import opened Ledger
  import opened CoreInvariant
  import opened CoreSteps
  import opened DeltaMaps
  import opened BondInvariant
  import opened Consensus
  import opened Runs
  import opened RunTheorems
  import opened CheckOrder

  /** Tokens can be taken from a delta map: as many as wanted, or all of them. */
  lemma {:induction false} CanTakeFrom(m: Bond, want: nat) returns (taken: Bond)
    ensures TakesFrom(Some(m), want, taken)
    decreases |m|
  {
    hide SumOf;
    SumOfNothing<nat>();
    SumNonNegative(m);
    if m == map[] || want == 0 {
      taken := map[];
    } else {
      var k :| k in m;
      SumSplit(m, k);
      SumNonNegative(m - {k});
      if want < m[k] {
        taken := map[k := want];
        SumUpdate<nat>(map[], k, want);
      } else {
        var rest := CanTakeFrom(m - {k}, want - m[k]);
        taken := rest[k := m[k]];
        SumUpdate(rest, k, m[k]);
      }
    }
  }

  lemma {:induction false} CanTake(data: seq<Option<Bond>>, want: nat) returns (taken: seq<Bond>)
    ensures Takes(data, want, taken)
    decreases |data|
  {
    hide TakesFrom, SumOf;
    if data == [] {
      taken := [];
    } else {
      var last := |data| - 1;
      var here := CanTakeFrom(Total(data[last]), want);
      TotalTakes(data[last], want, here);
      SumNonNegative(Total(data[last]));
      var before := CanTake(data[..last], want - Min(want, SumOf(Total(data[last]))));
      taken := before + [here];
      assert taken[..last] == before;
    }
  }

  lemma TotalTakes(bond: Option<Bond>, want: nat, taken: Bond)
    requires TakesFrom(Some(Total(bond)), want, taken)
    ensures TakesFrom(bond, want, taken)
  {
  }

  /** The updates for an epoch can be listed. */
  lemma CanList(s: Pos, epoch: nat) returns (updates: seq<Update>)
    ensures Lists(updates, s, epoch)
  {
    hide ActiveUpdates, Deactivations;
    updates := Arrange(ActiveUpdates(s, epoch) + Deactivations(s, epoch));
  }

  /** The same attempt, up to the choices that the system makes. */
  predicate SameAttempt(a: Action, b: Action) {
    match (a, b)
    case (DoUnbond(source, v, amount, _), DoUnbond(source', v', amount', _)) => source == source' && v == v'
      && amount == amount'
    case (DoNextEpoch(_), DoNextEpoch(_)) => true
    case _ => a == b
  }

  lemma RunStarts(params: PosParams, tokens: map<Address, nat>, epoch: nat) returns (x: System)
    requires GenesisOk(params, tokens)
    ensures Run([x], []) && x.pos == Genesis(params, tokens, epoch)
  {
    hide GenesisOk, Genesis, Powerful, SetAt;
    x := FirstSystem(params, tokens, epoch);
    assert Initial([x][0], params, tokens, epoch);
  }

  lemma FirstSystem(params: PosParams, tokens: map<Address, nat>, epoch: nat) returns (x: System)
    requires GenesisOk(params, tokens)
    ensures Initial(x, params, tokens, epoch)
  {
    hide ParamsOk, Powerful, SetAt, SumOf;
    var s := Genesis(params, tokens, epoch);
    x := System(s, History(map v | v in tokens ::
      BondId(v, v) := tokens[v], map[], map[], map[], Powerful(SetAt(s, epoch))));
  }

  /** From every sound state, every attempt leads somewhere. */
  lemma StepExists(x: System, a: Action) returns (b: Action, y: System)
    requires WindowsFit(x.pos)
    ensures SameAttempt(a, b) && Next(x, b, y)
    ensures b.DoUnbond? && IdOf(b.source, b.validator) in x.pos.bonds ==>
      Takeable(x.pos, IdOf(b.source, b.validator), b.amount, b.taken)
  {
    hide BondTokens, UnbondTokens, Withdraw, SlashValidator, BecomeValidator, Lists, Replay, DueBy, Takes, Advance,
      AfterBond, AfterUnbond, AfterWithdraw;
    var s := x.pos;
    b := a;
    match a
    case DoBecome(address, reward) =>
      y := x.(pos := OrElse(BecomeValidator(s, address, reward), s));
    case DoBond(source, v, amount) =>
      var r := BondTokens(s, source, v, amount);
      y := if r.Ok? then System(r.value, AfterBond(x.hist, IdOf(source, v), amount)) else x;
    case DoUnbond(source, v, amount, _) =>
      var id := IdOf(source, v);
      var taken: seq<Bond> := [];
      if id in s.bonds {
        taken := CanTake(Advance(AddAmounts<nat>, s.bonds[id], s.epoch, s.params.pipelineLen).data, amount);
      }
      NoBondNoUnbond(s, source, v, amount, taken);
      var r := UnbondTokens(s, source, v, amount, taken);
      b := DoUnbond(source, v, amount, taken);
      y := if r.Ok? then System(r.value, AfterUnbond(x.hist, id, amount, s.epoch)) else x;
    case DoWithdraw(source, v) =>
      var r := Withdraw(s, source, v);
      y := if r.Ok? then Withdrew(x, IdOf(source, v), r.value) else x;
    case DoSlash(v, slashType, evidenceEpoch) =>
      y := x.(pos := OrElse(SlashValidator(s, v, slashType, evidenceEpoch), s));
    case DoNextEpoch(_) =>
      var updates := CanList(s, s.epoch + 1);
      b := DoNextEpoch(updates);
      y := System(s.(epoch := s.epoch + 1), x.hist.(engine := Replay(x.hist.engine, updates)));
  }

  lemma NoBondNoUnbond(s: Pos, source: Option<Address>, v: Address, amount: nat, taken: seq<Bond>)
    requires WindowsFit(s)
    ensures UnbondTokens(s, source, v, amount, taken).Ok? ==> IdOf(source, v) in s.bonds
  {
    hide Get, ChangeStake, AddAt, Advance, LeftOvers, WorthInAll, TakenInAll, SumOf, Fits;
  }

  /** Every run can go on with any attempt. */
  lemma RunGoesOn(xs: seq<System>, actions: seq<Action>, a: Action) returns (b: Action, y: System)
    requires Run(xs, actions)
    ensures SameAttempt(a, b) && Run(xs + [y], actions + [b])
    ensures var s := xs[|actions|].pos;
      b.DoUnbond? && IdOf(b.source, b.validator) in s.bonds ==>
        Takeable(s, IdOf(b.source, b.validator), b.amount, b.taken)
  {
    hide Next, Initial, SameAttempt, Inv;
    var last := |actions|;
    RunInv(xs, actions, last);
    SoundFits(xs[last]);
    b, y := StepExists(xs[last], a);
    ExtendRun(xs, actions, b, y);
  }

  lemma SoundFits(x: System)
    requires Inv(x)
    ensures WindowsFit(x.pos)
  {
    hide SetsTrack, StakesFit, SetsOk, PowersFollow, TotalPowerOk, BondsShaped, Books, EngineOk, StateLine,
      MaxTotalVotingPower;
  }

  lemma ExtendRun(xs: seq<System>, actions: seq<Action>, b: Action, y: System)
    requires Run(xs, actions) && Next(xs[|actions|], b, y)
    ensures Run(xs + [y], actions + [b])
  {
    hide Next, Initial;
    var zs, bs := xs + [y], actions + [b];
    assert zs[0] == xs[0];
    forall i | 0 <= i < |bs| ensures Next(zs[i], bs[i], zs[i + 1]) {
      if i < |actions| {
        assert Next(xs[i], actions[i], xs[i + 1]);
      }
    }
  }
}
